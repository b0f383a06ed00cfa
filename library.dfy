/** Behaviour the core takes from libraries, as opaque functions passed in:
    Mongoose's `ObjectId.isValid`, express-validator's `isMongoId`, `isEmail`
    and `isISO8601`, date parsing, MongoDB's `$text` search, bcrypt and
    jsonwebtoken. */
module Library {
  import opened Common
  import opened Models

  datatype Primitives = Primitives(
    /** `mongoose.Types.ObjectId.isValid` (also decides whether a value casts to an ObjectId). */
    isObjectId: string -> bool,
    /** express-validator `isMongoId`. */
    isMongoId: string -> bool,
    /** express-validator `isEmail`. */
    isEmail: string -> bool,
    /** express-validator `isISO8601`. */
    isISO8601: string -> bool,
    /** whether `new Date(s)` is a valid date, so that Mongoose's Date cast succeeds. */
    isDate: string -> bool,
    /** `toDate()` / `new Date(s)`, as a millisecond timestamp. */
    toDate: string -> int,
    /** whether a task matches a MongoDB `$text` search. */
    textMatches: (string, Task) -> bool,
    /** `bcrypt.hash(password, salt)`. */
    hash: (string, string) -> string,
    /** `bcrypt.compare(plain, hashed)`. */
    compare: (string, string) -> bool,
    /** `createToken(payload)` (jwt.sign with the server secret). */
    sign: Claims -> string,
    /** `jwt.verify(token, secret)`: the decoded payload, or None when it throws. */
    verify: string -> Option<Claims>)
}

/** The backend's error middleware: every error that reaches it becomes one
    JSON reply whose status says which of three kinds it was. */
module ErrorHandler {
  import opened Wrappers

  /** One entry of a validation error's `errors` object, in the order of its
      keys. */
  datatype FieldError = FieldError(path: string, message: string)

  /** The parts of a thrown error the handler looks at. `code` is None when
      the error has no numeric `code`. */
  datatype Error = Error(name: string, code: Option<int>, message: string, errors: seq<FieldError>)

  datatype Details = Messages(items: seq<string>) | Text(text: string)

  datatype Response = Response(status: int, error: string, details: Details)

  const DuplicateKey := 11000

  /** `Object.values(err.errors).map(error => error.message)` */
  function MessagesOf(errors: seq<FieldError>): (ms: seq<string>)
    ensures |ms| == |errors|
    ensures forall i :: 0 <= i < |errors| ==> ms[i] == errors[i].message
  {
    if errors == [] then [] else [errors[0].message] + MessagesOf(errors[1..])
  }

  predicate IsValidation(err: Error) {
    err.name == "ValidationError"
  }

  predicate IsDuplicate(err: Error) {
    err.name == "MongoError" && err.code == Some(DuplicateKey)
  }

  /** The reply for `err` when the server runs with `NODE_ENV` equal to
      `nodeEnv`. */
  function Handle(err: Error, nodeEnv: string): (r: Response)
    ensures r.status == 400 <==> IsValidation(err)
    ensures r.status == 409 <==> IsDuplicate(err) && !IsValidation(err)
    ensures r.status == 500 <==> !IsValidation(err) && !IsDuplicate(err)
    ensures r.status == 400 ==> r.error == "Validation Error" &&
                                r.details == Messages(MessagesOf(err.errors))
    ensures r.status == 409 ==> r.error == "Duplicate Error" &&
                                r.details == Text("This record already exists")
    ensures r.status == 500 ==> r.error == "Internal Server Error" &&
                                r.details == Text(if nodeEnv == "development" then err.message else "Something went wrong")
  {
    if IsValidation(err) then
      Response(400, "Validation Error", Messages(MessagesOf(err.errors)))
    else if IsDuplicate(err) then
      Response(409, "Duplicate Error", Text("This record already exists"))
    else
      Response(500, "Internal Server Error",
               Text(if nodeEnv == "development" then err.message else "Something went wrong"))
  }

  /** Exactly one of the three statuses, each with its own error label. */
  lemma StatusOneOf(err: Error, nodeEnv: string)
    ensures Handle(err, nodeEnv).status in {400, 409, 500}
    ensures Handle(err, nodeEnv).error ==
              (match Handle(err, nodeEnv).status
               case 400 => "Validation Error"
               case 409 => "Duplicate Error"
               case _ => "Internal Server Error")
  {
  }

  /** A Mongo error with any code other than the duplicate-key code is an
      internal error, whatever its message. */
  lemma OtherMongoCodesAreInternal(err: Error, nodeEnv: string)
    requires err.name == "MongoError" && err.code != Some(DuplicateKey)
    ensures Handle(err, nodeEnv).status == 500
  {
  }

  /** Outside development the reply never depends on the error's own message:
      two errors that differ only in `message` get the same reply. */
  lemma MessageHiddenOutsideDevelopment(err: Error, message: string, nodeEnv: string)
    requires nodeEnv != "development"
    ensures Handle(err.(message := message), nodeEnv) == Handle(err, nodeEnv)
  {
  }

  /** A validation reply lists one message per failing field, in field order,
      so the fields' messages can be read back from it. */
  lemma ValidationDetailsPerField(err: Error, nodeEnv: string)
    requires IsValidation(err)
    ensures Handle(err, nodeEnv).details.Messages?
    ensures |Handle(err, nodeEnv).details.items| == |err.errors|
    ensures forall i :: 0 <= i < |err.errors| ==>
              Handle(err, nodeEnv).details.items[i] == err.errors[i].message
  {
  }
}

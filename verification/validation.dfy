/** The user validation of localFunction.kt.

`saveUser` and the extension `User.validateBeforeSave` each declare a local
`validate` that throws an IllegalArgumentException naming the user id and the
field when the value is empty, and call it on `name` and then on `address`.
Here a thrown exception is a `Fail` outcome carrying the id and the field name,
and normal completion is `Pass`.
 */
module Validation {

  /** Kotlin's `Long`. */
  newtype Long = x: int | -0x8000_0000_0000_0000 <= x < 0x8000_0000_0000_0000

  /** What the exception message reports: the user id and the failing field. */
  datatype ValidationError = ValidationError(userId: Long, fieldName: string)

  /** Completion of a validation: normal return, or the exception it throws. */
  datatype Outcome = Pass | Fail(error: ValidationError)

  datatype User = User(id: Long, name: string, address: string)
  {
    /** The extension function `User.validateBeforeSave`; its local `validate`
        reads the receiver's `id`. It behaves exactly as `SaveUser`. */
    function ValidateBeforeSave(): (r: Outcome)
      ensures r == SaveUser(this)
    {
      var validate := (value: string, fieldName: string) =>
        if |value| == 0 then Fail(ValidationError(id, fieldName)) else Pass;
      var nameChecked := validate(name, "name");
      if nameChecked.Fail? then nameChecked else validate(address, "address")
    }
  }

  /** `saveUser`: its local `validate` captures `user`; `name` is checked before
      `address`, and the first failure ends the call. */
  function SaveUser(user: User): (r: Outcome)
    ensures r.Pass? <==> |user.name| > 0 && |user.address| > 0
    ensures r.Fail? ==> r.error.userId == user.id
    ensures |user.name| == 0 ==> r == Fail(ValidationError(user.id, "name"))
    ensures |user.name| > 0 && |user.address| == 0 ==> r == Fail(ValidationError(user.id, "address"))
  {
    var validate := (value: string, fieldName: string) =>
      if |value| == 0 then Fail(ValidationError(user.id, fieldName)) else Pass;
    var nameChecked := validate(user.name, "name");
    if nameChecked.Fail? then nameChecked else validate(user.address, "address")
  }

  /** `saveUser2`: delegates to the extension function. */
  function SaveUser2(user: User): (r: Outcome)
    ensures r == SaveUser(user)
  {
    user.ValidateBeforeSave()
  }

  /** The fields that are validated, paired with their values, in the order the
      checks run. */
  function CheckedFields(user: User): seq<(string, string)>
  {
    [("name", user.name), ("address", user.address)]
  }

  /** Reference definition of an ordered validator: the index of the first field
      whose value is empty, or `|fields|` when there is none. */
  function FirstEmpty(fields: seq<(string, string)>): (i: nat)
    ensures i <= |fields|
    ensures i < |fields| ==> |fields[i].1| == 0
    ensures forall j :: 0 <= j < i ==> |fields[j].1| > 0
  {
    if |fields| == 0 then 0
    else if |fields[0].1| == 0 then 0
    else 1 + FirstEmpty(fields[1..])
  }

  /** `saveUser` reports exactly the first empty field in check order, with the
      user's id, and passes when no checked field is empty; the id itself is
      never examined. */
  lemma SaveUserReportsFirstEmpty(user: User)
    ensures var fields := CheckedFields(user);
            var i := FirstEmpty(fields);
            SaveUser(user) == (if i < |fields| then Fail(ValidationError(user.id, fields[i].0)) else Pass)
  {
  }
}

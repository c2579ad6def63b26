/** `handleFirebaseError`: an error code looked up in a fixed table of seven
    authentication codes, each mapped to a tagged message, with a default
    for every other code and for an error without one. */
module FirebaseErrors {
  import opened Wrappers

  /** A message as the table writes it: an upper-case tag, ": ", the text. */
  function Tagged(tag: string, text: string): string {
    tag + ": " + text
  }

  predicate IsTag(tag: string) {
    |tag| > 0 && forall k :: 0 <= k < |tag| ==> 'A' <= tag[k] <= 'Z' || tag[k] == '_'
  }

  const UnknownError: string :=
    Tagged("UNKNOWN_ERROR", "An unexpected" + " error occurred." + " Please try" + " again.")

  const ErrorTable: map<string, string> := map[
    "auth/invalid-email" :=
      Tagged("INVALID_EMAIL", "The email" + " address is" + " improperly" + " formatted."),
    "auth/user-disabled" :=
      Tagged("USER_DISABLED", "The user" + " account has" + " been disabled."),
    "auth/user-not-found" :=
      Tagged("USER_NOT_FOUND", "There is no" + " user record" + " corresponding" + " to this" + " identifier."),
    "auth/wrong-password" :=
      Tagged("INCORRECT_PASSWORD", "The password" + " is invalid."),
    "auth/email-already-in-use" :=
      Tagged("EMAIL_IN_USE", "The email" + " address is" + " already in use" + " by another" + " account."),
    "auth/operation-not-allowed" :=
      Tagged("OPERATION_DENIED", "This operation" + " is not allowed."),
    "auth/weak-password" :=
      Tagged("WEAK_PASSWORD", "The password" + " must be 6" + " characters long" + " or more.")]

  /** The message for an error whose `code` is `code` (`None` when the error
      has none): the table's entry for a listed code, the default otherwise. */
  function HandleFirebaseError(code: Option<string>): (message: string)
    ensures code.Some? && code.value in ErrorTable ==> message == ErrorTable[code.value]
    ensures code.None? || code.value !in ErrorTable ==> message == UnknownError
  {
    if code.Some? && code.value in ErrorTable then ErrorTable[code.value] else UnknownError
  }

  const AuthCodes: set<string> := {
    "auth/invalid-email", "auth/user-disabled", "auth/user-not-found", "auth/wrong-password",
    "auth/email-already-in-use", "auth/operation-not-allowed", "auth/weak-password"}

  /** The table has exactly the seven authentication codes. */
  lemma TableCodes(code: string)
    ensures code in ErrorTable <==> code in AuthCodes
    ensures |ErrorTable| == 7
  {
    assert ErrorTable.Keys == AuthCodes;
    CodeCount();
  }

  lemma CodeCount()
    ensures |AuthCodes| == 7
  {
  }

  /** Every message the function can return starts with an upper-case tag
      followed by ": ". */
  lemma MessagesAreTagged(code: Option<string>)
    ensures exists tag, text :: IsTag(tag) && HandleFirebaseError(code) == tag + ": " + text
  {
    if code.Some? && code.value in ErrorTable {
      ListedEntry(code.value);
    } else {
      Witness("UNKNOWN_ERROR", "An unexpected" + " error occurred." + " Please try" + " again.", UnknownError);
    }
  }

  /** Reads a message back to the code whose entry it is: by its length, and
      for the one length two messages share, by its first letter. */
  function CodeOfMessage(m: string): Option<string> {
    if |m| == 57 then Some("auth/invalid-email")
    else if |m| == 50 then Some("auth/user-disabled")
    else if |m| == 73 then Some("auth/user-not-found")
    else if |m| == 44 then Some("auth/wrong-password")
    else if |m| == 69 then Some("auth/email-already-in-use")
    else if |m| == 48 then Some("auth/operation-not-allowed")
    else if |m| == 62 && m[0] == 'W' then Some("auth/weak-password")
    else None
  }

  /** A listed code's entry is tagged and reads back to the code. */
  lemma ListedEntry(c: string)
    requires c in ErrorTable
    ensures exists tag, text :: IsTag(tag) && ErrorTable[c] == tag + ": " + text
    ensures CodeOfMessage(ErrorTable[c]) == Some(c)
  {
    TableCodes(c);
    if c == "auth/invalid-email" || c == "auth/user-disabled" {
      SignInEntries(c);
    } else if c == "auth/user-not-found" || c == "auth/wrong-password" {
      AccountEntries(c);
    } else {
      SignUpEntries(c);
    }
  }

  lemma SignInEntries(c: string)
    requires c == "auth/invalid-email" || c == "auth/user-disabled"
    ensures c in ErrorTable && exists tag, text :: IsTag(tag) && ErrorTable[c] == tag + ": " + text
    ensures CodeOfMessage(ErrorTable[c]) == Some(c)
  {
    if c == "auth/invalid-email" {
      Witness("INVALID_EMAIL", "The email" + " address is" + " improperly" + " formatted.", ErrorTable[c]);
    } else {
      Witness("USER_DISABLED", "The user" + " account has" + " been disabled.", ErrorTable[c]);
    }
  }

  lemma AccountEntries(c: string)
    requires c == "auth/user-not-found" || c == "auth/wrong-password"
    ensures c in ErrorTable && exists tag, text :: IsTag(tag) && ErrorTable[c] == tag + ": " + text
    ensures CodeOfMessage(ErrorTable[c]) == Some(c)
  {
    if c == "auth/user-not-found" {
      Witness("USER_NOT_FOUND", "There is no" + " user record" + " corresponding" + " to this" + " identifier.", ErrorTable[c]);
    } else {
      Witness("INCORRECT_PASSWORD", "The password" + " is invalid.", ErrorTable[c]);
    }
  }

  lemma SignUpEntries(c: string)
    requires c == "auth/email-already-in-use" || c == "auth/operation-not-allowed" || c == "auth/weak-password"
    ensures c in ErrorTable && exists tag, text :: IsTag(tag) && ErrorTable[c] == tag + ": " + text
    ensures CodeOfMessage(ErrorTable[c]) == Some(c)
  {
    if c == "auth/email-already-in-use" {
      Witness("EMAIL_IN_USE", "The email" + " address is" + " already in use" + " by another" + " account.", ErrorTable[c]);
    } else if c == "auth/operation-not-allowed" {
      Witness("OPERATION_DENIED", "This operation" + " is not allowed.", ErrorTable[c]);
    } else {
      Witness("WEAK_PASSWORD", "The password" + " must be 6" + " characters long" + " or more.", ErrorTable[c]);
    }
  }

  lemma Witness(tag: string, text: string, m: string)
    requires m == Tagged(tag, text)
    requires forall k :: 0 <= k < |tag| ==> 'A' <= tag[k] <= 'Z' || tag[k] == '_'
    requires |tag| > 0
    ensures exists t, x :: IsTag(t) && m == t + ": " + x
  {
    assert IsTag(tag);
  }

  /** The default message reads back to no code. */
  lemma DefaultHasNoCode()
    ensures CodeOfMessage(UnknownError) == None
  {
  }

  /** The message names the code: two codes of the table never share a
      message, and no listed code gets the default. */
  lemma MessageIdentifiesCode(a: Option<string>, b: Option<string>)
    requires a.Some? && a.value in ErrorTable
    ensures HandleFirebaseError(a) != UnknownError
    ensures HandleFirebaseError(a) == HandleFirebaseError(b) <==> b == a
  {
    ListedEntry(a.value);
    DefaultHasNoCode();
    if b.Some? && b.value in ErrorTable {
      ListedEntry(b.value);
    }
  }

  /** What reading `errorMap[code]` yields in JavaScript: a table entry, a
      member that every object inherits, or nothing. */
  datatype JsValue = JsString(s: string) | JsFunction(name: string) | JsObject | JsUndefined

  /** The members every object literal inherits from `Object.prototype`;
      `__proto__` is the prototype object itself, the others are functions. */
  const InheritedMembers: set<string> := {
    "constructor", "toString", "toLocaleString", "valueOf", "hasOwnProperty", "isPrototypeOf",
    "propertyIsEnumerable", "__proto__", "__defineGetter__", "__defineSetter__",
    "__lookupGetter__", "__lookupSetter__"}

  function Lookup(code: string): (v: JsValue)
    ensures code in ErrorTable ==> v == JsString(ErrorTable[code])
    ensures v == JsUndefined <==> code !in ErrorTable && code !in InheritedMembers
  {
    if code in ErrorTable then JsString(ErrorTable[code])
    else if code == "__proto__" then JsObject
    else if code in InheritedMembers then JsFunction(code)
    else JsUndefined
  }

  predicate Truthy(v: JsValue) {
    match v
    case JsString(s) => s != ""
    case JsUndefined => false
    case _ => true
  }

  /** The function as written: `error.code && errorMap[error.code]` is true
      for an inherited member's name too, and that member is returned. */
  function HandleAsWritten(code: Option<string>): JsValue {
    if code.Some? && code.value != "" && Truthy(Lookup(code.value)) then Lookup(code.value)
    else JsString(UnknownError)
  }

  /** An error whose code is "toString" gets a function back instead of a
      message, and one whose code is "__proto__" gets an object. */
  lemma InheritedCodeReturnsNoMessage()
    ensures HandleAsWritten(Some("toString")) == JsFunction("toString")
    ensures HandleAsWritten(Some("__proto__")) == JsObject
  {
    TableCodes("toString");
    TableCodes("__proto__");
  }

  /** For every code except the inherited members' names, the function as
      written returns the same message as the corrected lookup. */
  lemma AgreesOutsideInheritedNames(code: Option<string>)
    requires code.None? || code.value !in InheritedMembers
    ensures HandleAsWritten(code) == JsString(HandleFirebaseError(code))
  {
    if code.Some? {
      var c := code.value;
      LookupOutsideInherited(c);
      if c in ErrorTable {
        MessagesNonEmpty(c);
      }
    }
  }

  lemma LookupOutsideInherited(c: string)
    requires c !in InheritedMembers
    ensures Lookup(c) == if c in ErrorTable then JsString(ErrorTable[c]) else JsUndefined
  {
  }

  lemma MessagesNonEmpty(c: string)
    requires c in ErrorTable
    ensures |ErrorTable[c]| > 2
  {
    MessagesAreTagged(Some(c));
  }
}

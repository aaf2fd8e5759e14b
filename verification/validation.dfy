/** The command validator run by the transport before the engine: a command
    must be present and typed; an INCREMENT needs every value to read as a
    32-bit decimal integer, a COLLECT needs every value to be a list; a
    REPLACE is accepted as it is. */
module Validation {
  import opened Results
  import opened PropertyValues
  import opened TextForms
  import opened Commands

  /** `isInteger`: false for the empty string, otherwise whether
      `Integer.parseInt` accepts the text. */
  function IsInteger(s: string): (b: bool)
    ensures b ==> |s| > 0
    ensures b <==> ParseInt(s).Some?
  {
    if |s| == 0 then false else ParseInt(s).Some?
  }

  /** `isAllValuesInteger`: an absent map passes; otherwise every value's
      text must be an integer. */
  function IsAllValuesInteger(properties: Option<map<string, Raw>>): (b: bool)
    ensures b && properties.Some? ==> forall k :: k in properties.value ==> !properties.value[k].List?
    ensures (properties.Some? && forall k :: k in properties.value ==>
               properties.value[k].Number? && IntMin <= properties.value[k].n <= IntMax) ==> b
  {
    match properties
    case None => true
    case Some(m) => forall k :: k in m ==> IsInteger(Show(m[k]))
  }

  /** `isAllValuesList`: an absent map passes; otherwise every value must be
      a list. A non-empty map that passes fails the integer check. */
  function IsAllValuesList(properties: Option<map<string, Raw>>): (b: bool)
    ensures b && properties.Some? && |properties.value| > 0 ==> !IsAllValuesInteger(properties)
  {
    match properties
    case None => true
    case Some(m) =>
      ListsFailIntegerCheck(m);
      forall k :: k in m ==> m[k].List?
  }

  /** A non-empty map of lists never passes the integer check. */
  lemma ListsFailIntegerCheck(m: map<string, Raw>)
    ensures (forall k :: k in m ==> m[k].List?) && |m| > 0 ==> !IsAllValuesInteger(Some(m))
  {
  }

  /** `isValid` over a possibly absent command. */
  function IsValid(command: Option<Command>): (b: bool)
    ensures b ==> command.Some? && command.value.commandType.Some?
    ensures command.Some? && command.value.commandType == Some(Replace) ==> b
    ensures b && command.value.commandType == Some(Increment) && command.value.properties.Some? ==>
      forall k :: k in command.value.properties.value ==> !command.value.properties.value[k].List?
    ensures b && command.value.commandType == Some(Collect) && command.value.properties.Some? ==>
      forall k :: k in command.value.properties.value ==> command.value.properties.value[k].List?
  {
    if command.None? || command.value.commandType.None? then false
    else
      var c := command.value;
      var t := c.commandType.value;
      if t == Increment && !IsAllValuesInteger(c.properties) then false
      else if t == Collect && !IsAllValuesList(c.properties) then false
      else true
  }

  /** An absent command, or one without a type, is refused. */
  lemma NullIsInvalid(c: Command)
    ensures !IsValid(None)
    ensures c.commandType.None? ==> !IsValid(Some(c))
  {
  }

  /** A typed REPLACE command is accepted whatever its values. */
  lemma ReplaceAlwaysValid(c: Command)
    requires c.commandType == Some(Replace)
    ensures IsValid(Some(c))
  {
  }

  /** An INCREMENT with a map is valid exactly when every value reads as a
      32-bit integer: a number must fit in 32 bits, a list never qualifies,
      and another scalar qualifies only when its text is an integer. */
  lemma IncrementValidity(c: Command, m: map<string, Raw>)
    requires c.commandType == Some(Increment) && c.properties == Some(m)
    ensures IsValid(Some(c)) <==> forall k :: k in m ==> ValueReadsAsInt(m[k])
  {
  }

  /** Whether `toString` then `parseInt` accepts a raw value, case by case. */
  predicate ValueReadsAsInt(r: Raw) {
    match r
    case Number(n) => IntMin <= n <= IntMax
    case List(_) => false
    case Scalar(text) => ParseInt(text).Some?
  }

  lemma ValueReadsAsIntCases(r: Raw)
    ensures IsInteger(Show(r)) <==> ValueReadsAsInt(r)
  {
  }

  /** The word "new" is not an integer, so an INCREMENT carrying it is refused. */
  lemma IncrementWithWordIsInvalid(userId: string)
    ensures !IsValid(Some(Command(userId, Some(Increment),
                                  Some(map["battleFought" := Number(10), "questsNotCompleted" := Scalar("new")]))))
  {
    var m := map["battleFought" := Number(10), "questsNotCompleted" := Scalar("new")];
    assert "new"[0] == 'n' && !IsDigit("new"[0]);
    assert !IsInteger(Show(m["questsNotCompleted"]));
  }

  /** A COLLECT with a map is valid exactly when every value is a list. */
  lemma CollectValidity(c: Command, m: map<string, Raw>)
    requires c.commandType == Some(Collect) && c.properties == Some(m)
    ensures IsValid(Some(c)) <==> forall k :: k in m ==> m[k].List?
  {
  }

  /** A bare string for a COLLECT is refused. */
  lemma CollectWithStringIsInvalid(userId: string)
    ensures !IsValid(Some(Command(userId, Some(Collect), Some(map["inventory" := Scalar("newWeapon")]))))
  {
    var m := map["inventory" := Scalar("newWeapon")];
    assert !m["inventory"].List?;
  }

  /** An absent properties map passes both value checks. */
  lemma AbsentPropertiesPass(c: Command)
    requires c.commandType.Some? && c.properties.None?
    ensures IsValid(Some(c))
  {
  }
}

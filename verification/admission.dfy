/** How the validator's verdict relates to what the engine then does with the
    command.  For COLLECT the validator's list check is exactly what the
    engine's cast needs.  For INCREMENT it checks the text of each value, not
    its kind, so a JSON string such as "42" passes validation and then fails
    the engine's cast to a number.  `IsValidStrict` is the check the
    validator evidently means: an INCREMENT value must be a 32-bit number. */
module Admission {
  import opened Results
  import opened PropertyValues
  import opened TextForms
  import opened Commands
  import opened Validation
  import opened Profiles
  import opened PropertyUpdates
  import opened ProfileService

  /** Every value is a number in the 32-bit range. */
  predicate AllValuesInt32(properties: Option<map<string, Raw>>) {
    match properties
    case None => true
    case Some(m) => forall k :: k in m ==> m[k].Number? && IntMin <= m[k].n <= IntMax
  }

  /** The validator with the INCREMENT check corrected to look at each
      value's kind as well as its text. */
  predicate IsValidStrict(command: Option<Command>) {
    && IsValid(command)
    && (command.Some? && command.value.commandType == Some(Increment) ==>
          AllValuesInt32(command.value.properties))
  }

  /** The correction only narrows the validator: it refuses exactly the
      INCREMENT commands that carry a value that is not a 32-bit number. */
  lemma StrictOnlyNarrows(command: Option<Command>)
    ensures IsValidStrict(command) ==> IsValid(command)
    ensures IsValid(command) && !IsValidStrict(command) ==>
      command.value.commandType == Some(Increment) && !AllValuesInt32(command.value.properties)
  {
  }

  /** As written: an INCREMENT carrying the string "42" on a known user is
      accepted by the validator and then fails the engine's cast. */
  lemma ValidatorAdmitsUncastableIncrement()
    ensures var cmd := Command("u", Some(Increment), Some(map["x" := Scalar("42")]));
            var store := map["u" := Profile("u", Instant(0, 0), map[])];
            && IsValid(Some(cmd))
            && ProcessCommands(store, cmd, Instant(0, 0), ["x"]) == Failure(ClassCast)
  {
    var m := map["x" := Scalar("42")];
    var cmd := Command("u", Some(Increment), Some(m));
    var store := map["u" := Profile("u", Instant(0, 0), map[])];
    assert AllDigits("42");
    assert DigitsValue("42") == 42 by {
      assert "42"[..1] == "4";
      assert "4"[..0] == "";
    }
    assert IsInteger(Show(m["x"]));
    ProcessOneEntry(store, "u", Increment, "x", Scalar("42"), Instant(0, 0));
  }

  /** Corrected: a command the strict validator accepts never fails the
      engine's cast, whatever the store holds and whatever the iteration order. */
  lemma StrictValidationPreventsClassCast(store: Store, cmd: Command, now: Instant, order: seq<string>)
    requires IsValidStrict(Some(cmd))
    requires cmd.properties.Some? ==> Enumerates(order, cmd.properties.value)
    ensures ProcessCommands(store, cmd, now, order) != Failure(ClassCast)
  {
    NoClassCastWhenKindsMatch(store, cmd, now, order);
  }

  /** As written, the validator already rules the cast failure out for
      COLLECT: every value it accepts is a list. */
  lemma CollectValidationPreventsClassCast(store: Store, cmd: Command, now: Instant, order: seq<string>)
    requires IsValid(Some(cmd)) && cmd.commandType == Some(Collect)
    requires cmd.properties.Some? ==> Enumerates(order, cmd.properties.value)
    ensures ProcessCommands(store, cmd, now, order) != Failure(ClassCast)
  {
    NoClassCastWhenKindsMatch(store, cmd, now, order);
  }

  /** The engine raises ClassCast only for an INCREMENT value that is not a
      number or a COLLECT value that is not a list. */
  lemma NoClassCastWhenKindsMatch(store: Store, cmd: Command, now: Instant, order: seq<string>)
    requires cmd.properties.Some? ==> Enumerates(order, cmd.properties.value)
    requires cmd.commandType == Some(Increment) && cmd.properties.Some? ==>
      forall k :: k in cmd.properties.value ==> cmd.properties.value[k].Number?
    requires cmd.commandType == Some(Collect) && cmd.properties.Some? ==>
      forall k :: k in cmd.properties.value ==> cmd.properties.value[k].List?
    ensures ProcessCommands(store, cmd, now, order) != Failure(ClassCast)
  {
    if |cmd.userId| > 0 && cmd.userId in store && cmd.commandType.Some? && cmd.properties.Some? {
      var t := cmd.commandType.value;
      var m := cmd.properties.value;
      var p := store[cmd.userId];
      ApplyInOrderMeetsSpec(t, p.properties, m, order);
    }
  }
}

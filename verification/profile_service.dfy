/** The profile service: `get` and the upsert engine `processCommands`.
    A command for an unknown user creates the profile from the command's
    values taken verbatim, whatever the command type; a command for a known
    user updates that profile by REPLACE, INCREMENT or COLLECT.  Every error
    leaves the store as it was: the model takes the reading in which an
    exception thrown inside the entry loop never reaches the final `put`, and
    the half-updated profile is never shared with the store. */
module ProfileService {
  import opened Results
  import opened PropertyValues
  import opened Commands
  import opened Profiles
  import opened PropertyUpdates

  /** `get`: the stored profile, or NotFound. */
  function Get(store: Store, userId: string): (r: Result<Profile>)
    ensures r.Success? <==> userId in store
    ensures r.Success? ==> r.value == store[userId]
    ensures r.Failure? ==> r.error == NotFound
  {
    if userId in store then Success(store[userId]) else Failure(NotFound)
  }

  /** The properties of a new profile: every command entry, wrapped. */
  function WrapAll(m: map<string, Raw>): (props: map<string, PropertyValue>)
    ensures props.Keys == m.Keys
    ensures forall name :: name in m ==> props[name] == Wrap(m[name])
  {
    map name | name in m :: Wrap(m[name])
  }

  /** `processCommands`.  `now` is the clock reading used for a new
      profile's creation time, and `order` is the iteration order of the
      command's properties map. */
  function ProcessCommands(store: Store, cmd: Command, now: Instant, order: seq<string>): (r: Result<Store>)
    requires cmd.properties.Some? ==> Enumerates(order, cmd.properties.value)
    ensures |cmd.userId| == 0 ==> r == Failure(IllegalArgument)
    ensures r.Failure? ==> r.error != NotFound
  {
    if |cmd.userId| == 0 then Failure(IllegalArgument)
    else if cmd.userId !in store then
      match cmd.properties
      case None => Failure(NullPointer)
      case Some(m) => Success(Put(store, Profile(cmd.userId, now, WrapAll(m))))
    else
      match cmd.commandType
      case None => Failure(NullPointer)
      case Some(t) =>
        match cmd.properties
        case None => Failure(NullPointer)
        case Some(m) => UpdateProfile(store, store[cmd.userId], t, m, order)
  }

  /** The shared shape of `replaceProperty`, `incrementProperty` and
      `collectProperty`: run the entry loop over the fetched profile, then
      `put` the whole profile back, or raise and put nothing. */
  function UpdateProfile(store: Store, p: Profile, t: CommandType, m: map<string, Raw>, order: seq<string>)
    : (r: Result<Store>)
    requires Enumerates(order, m)
    ensures r.Failure? ==> r.error == IllegalArgument || r.error == ClassCast
  {
    match ApplyInOrder(t, p.properties, m, order)
    case Failure(e) => Failure(e)
    case Success(props) => Success(Put(store, p.(properties := props)))
  }

  /** A successful command touches only its own user's profile: the store
      stays well keyed, gains at most that user, leaves every other profile
      as it was, and afterwards `get` finds the user.  A profile that already
      existed keeps its id and creation time; a new one is stamped `now`. */
  lemma ProcessCommandsFrame(store: Store, cmd: Command, now: Instant, order: seq<string>)
    requires WellKeyed(store)
    requires cmd.properties.Some? ==> Enumerates(order, cmd.properties.value)
    ensures var r := ProcessCommands(store, cmd, now, order);
            r.Success? ==>
              && WellKeyed(r.value)
              && r.value.Keys == store.Keys + {cmd.userId}
              && (forall id :: id in store && id != cmd.userId ==> r.value[id] == store[id])
              && Get(r.value, cmd.userId).Success?
              && r.value[cmd.userId].id == cmd.userId
              && (cmd.userId in store ==> r.value[cmd.userId].createdAt == store[cmd.userId].createdAt)
              && (cmd.userId !in store ==> r.value[cmd.userId].createdAt == now)
  {
  }

  /** For a known user the outcome is the order-free one: success exactly
      when every entry accepts its update, with the `Expected` properties. */
  lemma ExistingProfileOutcome(store: Store, cmd: Command, now: Instant, order: seq<string>,
                               t: CommandType, m: map<string, Raw>)
    requires WellKeyed(store) && |cmd.userId| > 0 && cmd.userId in store
    requires cmd.commandType == Some(t) && cmd.properties == Some(m) && Enumerates(order, m)
    ensures var r := ProcessCommands(store, cmd, now, order);
            var p := store[cmd.userId];
            && (r.Success? <==> AllAccepted(t, p.properties, m, m.Keys))
            && (r.Success? ==> r.value == Put(store, p.(properties := Expected(t, p.properties, m, m.Keys))))
            && (r.Failure? ==>
                  exists name :: name in m && Update(t, Lookup(p.properties, name), m[name]) == Failure(r.error))
  {
    ApplyInOrderMeetsSpec(t, store[cmd.userId].properties, m, order);
  }

  /** For an unknown user the new profile carries the command's id, the
      clock reading, and exactly the wrapped command entries, whatever the
      command type (even none). */
  lemma CreatesVerbatim(store: Store, cmd: Command, now: Instant, order: seq<string>, m: map<string, Raw>)
    requires |cmd.userId| > 0 && cmd.userId !in store
    requires cmd.properties == Some(m) && Enumerates(order, m)
    ensures var r := ProcessCommands(store, cmd, now, order);
            && r.Success? && cmd.userId in r.value
            && r.value[cmd.userId].id == cmd.userId
            && r.value[cmd.userId].createdAt == now
            && r.value[cmd.userId].properties.Keys == m.Keys
            && (forall name :: name in m ==> r.value[cmd.userId].properties[name] == Wrap(m[name]))
  {
  }

  /** REPLACE on a known user sets every named property to its wrapped
      incoming value, whatever was there before, and keeps everything else. */
  lemma ReplaceOverwrites(store: Store, cmd: Command, now: Instant, order: seq<string>, m: map<string, Raw>)
    requires WellKeyed(store) && |cmd.userId| > 0 && cmd.userId in store
    requires cmd.commandType == Some(Replace) && cmd.properties == Some(m) && Enumerates(order, m)
    ensures var r := ProcessCommands(store, cmd, now, order);
            var before := store[cmd.userId];
            && r.Success? && cmd.userId in r.value
            && var after := r.value[cmd.userId];
            && after.id == before.id && after.createdAt == before.createdAt
            && after.properties.Keys == before.properties.Keys + m.Keys
            && (forall name :: name in m ==> after.properties[name] == Wrap(m[name]))
            && (forall name :: name in before.properties && name !in m ==>
                  after.properties[name] == before.properties[name])
  {
    ExistingProfileOutcome(store, cmd, now, order, Replace, m);
  }

  /** INCREMENT on a known user succeeds exactly when every named property
      is stored as a number or absent and every incoming value is a number;
      it then stores old + delta, counting an absent property as zero.  A
      failure is IllegalArgument for a stored non-number, or ClassCast for an
      incoming non-number on a property that passed the stored check. */
  lemma IncrementAdds(store: Store, cmd: Command, now: Instant, order: seq<string>, m: map<string, Raw>)
    requires WellKeyed(store) && |cmd.userId| > 0 && cmd.userId in store
    requires cmd.commandType == Some(Increment) && cmd.properties == Some(m) && Enumerates(order, m)
    ensures var r := ProcessCommands(store, cmd, now, order);
            var before := store[cmd.userId];
            && (r.Success? <==> forall name :: name in m ==>
                  (name !in before.properties || IsNumber(before.properties[name])) && m[name].Number?)
            && (r.Success? ==>
                  && cmd.userId in r.value
                  && var after := r.value[cmd.userId];
                  && after.id == before.id && after.createdAt == before.createdAt
                  && after.properties.Keys == before.properties.Keys + m.Keys
                  && (forall name :: name in m && name in before.properties ==>
                        after.properties[name] == Wrap(Number(before.properties[name].value.n + m[name].n)))
                  && (forall name :: name in m && name !in before.properties ==>
                        after.properties[name] == Wrap(Number(m[name].n)))
                  && (forall name :: name in before.properties && name !in m ==>
                        after.properties[name] == before.properties[name]))
            && (r.Failure? ==>
                  || (r.error == IllegalArgument &&
                      exists name :: name in m && name in before.properties && !IsNumber(before.properties[name]))
                  || (r.error == ClassCast &&
                      exists name :: name in m && !m[name].Number? &&
                        (name !in before.properties || IsNumber(before.properties[name]))))
  {
    ExistingProfileOutcome(store, cmd, now, order, Increment, m);
  }

  /** INCREMENT naming a stored non-number fails. The failure is
      IllegalArgument whenever no entry can reach the cast and fail it,
      that is, whenever every incoming value whose property is stored as a
      number or absent is itself a number; the entry that meets the stored
      non-number may bring anything. */
  lemma IncrementRejectsStoredNonNumber(store: Store, cmd: Command, now: Instant, order: seq<string>,
                                        m: map<string, Raw>, name: string)
    requires WellKeyed(store) && |cmd.userId| > 0 && cmd.userId in store
    requires cmd.commandType == Some(Increment) && cmd.properties == Some(m) && Enumerates(order, m)
    requires name in m && name in store[cmd.userId].properties && !IsNumber(store[cmd.userId].properties[name])
    ensures ProcessCommands(store, cmd, now, order).Failure?
    ensures (forall k :: k in m && (k !in store[cmd.userId].properties || IsNumber(store[cmd.userId].properties[k])) ==>
               m[k].Number?) ==>
      ProcessCommands(store, cmd, now, order) == Failure(IllegalArgument)
  {
    IncrementAdds(store, cmd, now, order, m);
  }

  /** COLLECT on a known user succeeds exactly when every named property is
      stored as a list or absent and every incoming value is a list; it then
      stores the old list followed by the incoming one, in order and with
      duplicates, counting an absent property as the empty list. */
  lemma CollectAppends(store: Store, cmd: Command, now: Instant, order: seq<string>, m: map<string, Raw>)
    requires WellKeyed(store) && |cmd.userId| > 0 && cmd.userId in store
    requires cmd.commandType == Some(Collect) && cmd.properties == Some(m) && Enumerates(order, m)
    ensures var r := ProcessCommands(store, cmd, now, order);
            var before := store[cmd.userId];
            && (r.Success? <==> forall name :: name in m ==>
                  (name !in before.properties || IsList(before.properties[name])) && m[name].List?)
            && (r.Success? ==>
                  && cmd.userId in r.value
                  && var after := r.value[cmd.userId];
                  && after.id == before.id && after.createdAt == before.createdAt
                  && after.properties.Keys == before.properties.Keys + m.Keys
                  && (forall name :: name in m && name in before.properties ==>
                        after.properties[name] == Wrap(List(before.properties[name].value.items + m[name].items)))
                  && (forall name :: name in m && name !in before.properties ==>
                        after.properties[name] == Wrap(m[name]))
                  && (forall name :: name in before.properties && name !in m ==>
                        after.properties[name] == before.properties[name]))
            && (r.Failure? ==>
                  || (r.error == IllegalArgument &&
                      exists name :: name in m && name in before.properties && !IsList(before.properties[name]))
                  || (r.error == ClassCast &&
                      exists name :: name in m && !m[name].List? &&
                        (name !in before.properties || IsList(before.properties[name]))))
  {
    ExistingProfileOutcome(store, cmd, now, order, Collect, m);
    var r := ProcessCommands(store, cmd, now, order);
    var before := store[cmd.userId];
    if r.Success? {
      forall name | name in m && name !in before.properties
        ensures r.value[cmd.userId].properties[name] == Wrap(m[name])
      {
        assert [] + m[name].items == m[name].items;
      }
    }
  }

  /** A COLLECT with a single entry checks the stored value before the
      incoming one: a stored non-list raises IllegalArgument whatever comes
      in; only past that check does an incoming non-list raise ClassCast. */
  lemma CollectChecksStoredFirst(store: Store, userId: string, name: string, raw: Raw, now: Instant)
    requires WellKeyed(store) && |userId| > 0 && userId in store
    ensures var cmd := Command(userId, Some(Collect), Some(map[name := raw]));
            var stored := Lookup(store[userId].properties, name);
            && (stored.Some? && !IsList(stored.value) ==>
                  ProcessCommands(store, cmd, now, [name]) == Failure(IllegalArgument))
            && ((stored.None? || IsList(stored.value)) && !raw.List? ==>
                  ProcessCommands(store, cmd, now, [name]) == Failure(ClassCast))
  {
  }

  /** The iteration order never decides whether a command succeeds, nor
      what it stores when it does. */
  lemma OrderIrrelevant(store: Store, cmd: Command, now: Instant, order1: seq<string>, order2: seq<string>)
    requires cmd.properties.Some? ==> Enumerates(order1, cmd.properties.value)
    requires cmd.properties.Some? ==> Enumerates(order2, cmd.properties.value)
    ensures ProcessCommands(store, cmd, now, order1).Success? <==> ProcessCommands(store, cmd, now, order2).Success?
    ensures ProcessCommands(store, cmd, now, order1).Success? ==>
      ProcessCommands(store, cmd, now, order1) == ProcessCommands(store, cmd, now, order2)
  {
    if |cmd.userId| > 0 && cmd.userId in store && cmd.commandType.Some? && cmd.properties.Some? {
      var p := store[cmd.userId];
      var t := cmd.commandType.value;
      var m := cmd.properties.value;
      ApplyInOrderMeetsSpec(t, p.properties, m, order1);
      ApplyInOrderMeetsSpec(t, p.properties, m, order2);
    }
  }

  /** Applying the same REPLACE twice leaves the store as applying it once. */
  lemma ReplaceIdempotent(store: Store, cmd: Command, now1: Instant, now2: Instant, order: seq<string>)
    requires WellKeyed(store)
    requires cmd.commandType == Some(Replace) && cmd.properties.Some? && Enumerates(order, cmd.properties.value)
    ensures |cmd.userId| > 0 ==> ProcessCommands(store, cmd, now1, order).Success?
    ensures var r1 := ProcessCommands(store, cmd, now1, order);
            r1.Success? ==> ProcessCommands(r1.value, cmd, now2, order) == r1
  {
    var r1 := ProcessCommands(store, cmd, now1, order);
    var m := cmd.properties.value;
    if |cmd.userId| > 0 {
      if cmd.userId in store {
        ReplaceOverwrites(store, cmd, now1, order, m);
      }
      var s1 := r1.value;
      assert WellKeyed(s1);
      ReplaceOverwrites(s1, cmd, now2, order, m);
      var r2 := ProcessCommands(s1, cmd, now2, order);
      var p1 := s1[cmd.userId];
      var p2 := r2.value[cmd.userId];
      assert p2.properties == p1.properties;
      assert p2 == p1;
      assert r2.value == s1;
    }
  }

  /** A one-entry command on a known user is one `Update` of that entry. */
  lemma ProcessOneEntry(store: Store, userId: string, t: CommandType, name: string, raw: Raw, now: Instant)
    requires |userId| > 0 && userId in store
    ensures var p := store[userId];
            ProcessCommands(store, Command(userId, Some(t), Some(map[name := raw])), now, [name]) ==
              match Update(t, Lookup(p.properties, name), raw)
              case Failure(e) => Failure(e)
              case Success(v) => Success(store[p.id := p.(properties := p.properties[name := v])])
  {
    ApplyOne(t, store[userId].properties, map[name := raw], name);
  }

  /** A one-entry command on an unknown user creates the profile holding
      just that entry. */
  lemma CreateOneEntry(store: Store, userId: string, t: Option<CommandType>, name: string, raw: Raw, now: Instant)
    requires |userId| > 0 && userId !in store
    ensures ProcessCommands(store, Command(userId, t, Some(map[name := raw])), now, [name]) ==
      Success(store[userId := Profile(userId, now, map[name := Wrap(raw)])])
  {
    assert WrapAll(map[name := raw]) == map[name := Wrap(raw)];
  }

  /** A one-entry INCREMENT command. */
  function IncrementCommand(userId: string, name: string, delta: int): (c: Command)
    ensures c.properties.Some? && Enumerates([name], c.properties.value)
  {
    SingletonEnumerates(name, Number(delta));
    Command(userId, Some(Increment), Some(map[name := Number(delta)]))
  }

  /** A one-entry COLLECT command. */
  function CollectCommand(userId: string, name: string, items: seq<Raw>): (c: Command)
    ensures c.properties.Some? && Enumerates([name], c.properties.value)
  {
    SingletonEnumerates(name, List(items));
    Command(userId, Some(Collect), Some(map[name := List(items)]))
  }

  /** Incrementing by a and then by b ends where incrementing by a + b from
      the same store ends, and both fail alike. */
  lemma IncrementCumulative(store: Store, userId: string, name: string, a: int, b: int, now1: Instant, now2: Instant)
    requires WellKeyed(store)
    ensures var r1 := ProcessCommands(store, IncrementCommand(userId, name, a), now1, [name]);
            && (r1.Success? ==>
                  ProcessCommands(r1.value, IncrementCommand(userId, name, b), now2, [name])
                  == ProcessCommands(store, IncrementCommand(userId, name, a + b), now1, [name]))
            && (r1.Failure? ==> ProcessCommands(store, IncrementCommand(userId, name, a + b), now1, [name]) == r1)
  {
    if |userId| > 0 {
      if userId !in store {
        IncrementCumulativeOnNewUser(store, userId, name, a, b, now1, now2);
      } else {
        IncrementCumulativeOnKnownUser(store, userId, name, a, b, now1, now2);
      }
    }
  }

  lemma IncrementCumulativeOnNewUser(store: Store, userId: string, name: string, a: int, b: int,
                                     now1: Instant, now2: Instant)
    requires |userId| > 0 && userId !in store
    ensures var r1 := ProcessCommands(store, IncrementCommand(userId, name, a), now1, [name]);
            && r1.Success?
            && ProcessCommands(r1.value, IncrementCommand(userId, name, b), now2, [name])
               == ProcessCommands(store, IncrementCommand(userId, name, a + b), now1, [name])
  {
    CreateOneEntry(store, userId, Some(Increment), name, Number(a), now1);
    CreateOneEntry(store, userId, Some(Increment), name, Number(a + b), now1);
    var s1 := store[userId := Profile(userId, now1, map[name := Wrap(Number(a))])];
    ProcessOneEntry(s1, userId, Increment, name, Number(b), now2);
    var created := Profile(userId, now1, map[name := Wrap(Number(a + b))]);
    assert map[name := Wrap(Number(a))][name := Wrap(Number(a + b))] == created.properties;
    assert s1[userId := created] == store[userId := created];
  }

  /** The profile with one property set to a new value. */
  function WithProperty(p: Profile, name: string, v: PropertyValue): Profile {
    p.(properties := p.properties[name := v])
  }

  /** A one-entry INCREMENT on a known user whose property is numeric or absent. */
  lemma IncrementKnownNumeric(store: Store, userId: string, name: string, delta: int, now: Instant)
    requires WellKeyed(store) && |userId| > 0 && userId in store
    requires IsNumber(NumberBase(Lookup(store[userId].properties, name)))
    ensures ProcessCommands(store, IncrementCommand(userId, name, delta), now, [name]) ==
      Success(store[userId := WithProperty(store[userId], name,
                Wrap(Number(NumberBase(Lookup(store[userId].properties, name)).value.n + delta)))])
  {
    ProcessOneEntry(store, userId, Increment, name, Number(delta), now);
  }

  lemma IncrementCumulativeOnKnownUser(store: Store, userId: string, name: string, a: int, b: int,
                                       now1: Instant, now2: Instant)
    requires WellKeyed(store) && |userId| > 0 && userId in store
    ensures var r1 := ProcessCommands(store, IncrementCommand(userId, name, a), now1, [name]);
            && (r1.Success? ==>
                  ProcessCommands(r1.value, IncrementCommand(userId, name, b), now2, [name])
                  == ProcessCommands(store, IncrementCommand(userId, name, a + b), now1, [name]))
            && (r1.Failure? ==> ProcessCommands(store, IncrementCommand(userId, name, a + b), now1, [name]) == r1)
  {
    if IsNumber(NumberBase(Lookup(store[userId].properties, name))) {
      IncrementTwiceOnNumber(store, userId, name, a, b, now1, now2);
    } else {
      ProcessOneEntry(store, userId, Increment, name, Number(a), now1);
      ProcessOneEntry(store, userId, Increment, name, Number(a + b), now1);
    }
  }

  lemma IncrementTwiceOnNumber(store: Store, userId: string, name: string, a: int, b: int,
                               now1: Instant, now2: Instant)
    requires WellKeyed(store) && |userId| > 0 && userId in store
    requires IsNumber(NumberBase(Lookup(store[userId].properties, name)))
    ensures var r1 := ProcessCommands(store, IncrementCommand(userId, name, a), now1, [name]);
            && r1.Success?
            && ProcessCommands(r1.value, IncrementCommand(userId, name, b), now2, [name])
               == ProcessCommands(store, IncrementCommand(userId, name, a + b), now1, [name])
  {
    var p := store[userId];
    var base := NumberBase(Lookup(p.properties, name)).value.n;
    var p1 := WithProperty(p, name, Wrap(Number(base + a)));
    var p2 := WithProperty(p, name, Wrap(Number(base + (a + b))));
    var s1 := store[userId := p1];
    assert ProcessCommands(store, IncrementCommand(userId, name, a), now1, [name]) == Success(s1) by {
      IncrementKnownNumeric(store, userId, name, a, now1);
    }
    assert ProcessCommands(store, IncrementCommand(userId, name, a + b), now1, [name]) == Success(store[userId := p2]) by {
      IncrementKnownNumeric(store, userId, name, a + b, now1);
    }
    assert ProcessCommands(s1, IncrementCommand(userId, name, b), now2, [name]) == Success(store[userId := p2]) by {
      assert WellKeyed(s1);
      assert Lookup(s1[userId].properties, name) == Some(Wrap(Number(base + a)));
      IncrementKnownNumeric(s1, userId, name, b, now2);
      assert WithProperty(p1, name, Wrap(Number(base + a + b))) == p2;
      assert s1[userId := p2] == store[userId := p2];
    }
  }

  /** Collecting xs and then ys ends where collecting xs + ys from the same
      store ends, and both fail alike. */
  lemma CollectCumulative(store: Store, userId: string, name: string, xs: seq<Raw>, ys: seq<Raw>,
                          now1: Instant, now2: Instant)
    requires WellKeyed(store)
    ensures var r1 := ProcessCommands(store, CollectCommand(userId, name, xs), now1, [name]);
            && (r1.Success? ==>
                  ProcessCommands(r1.value, CollectCommand(userId, name, ys), now2, [name])
                  == ProcessCommands(store, CollectCommand(userId, name, xs + ys), now1, [name]))
            && (r1.Failure? ==> ProcessCommands(store, CollectCommand(userId, name, xs + ys), now1, [name]) == r1)
  {
    if |userId| > 0 {
      if userId !in store {
        CollectCumulativeOnNewUser(store, userId, name, xs, ys, now1, now2);
      } else {
        CollectCumulativeOnKnownUser(store, userId, name, xs, ys, now1, now2);
      }
    }
  }

  lemma CollectCumulativeOnNewUser(store: Store, userId: string, name: string, xs: seq<Raw>, ys: seq<Raw>,
                                   now1: Instant, now2: Instant)
    requires |userId| > 0 && userId !in store
    ensures var r1 := ProcessCommands(store, CollectCommand(userId, name, xs), now1, [name]);
            && r1.Success?
            && ProcessCommands(r1.value, CollectCommand(userId, name, ys), now2, [name])
               == ProcessCommands(store, CollectCommand(userId, name, xs + ys), now1, [name])
  {
    CreateOneEntry(store, userId, Some(Collect), name, List(xs), now1);
    CreateOneEntry(store, userId, Some(Collect), name, List(xs + ys), now1);
    var s1 := store[userId := Profile(userId, now1, map[name := Wrap(List(xs))])];
    ProcessOneEntry(s1, userId, Collect, name, List(ys), now2);
    var created := Profile(userId, now1, map[name := Wrap(List(xs + ys))]);
    assert map[name := Wrap(List(xs))][name := Wrap(List(xs + ys))] == created.properties;
    assert s1[userId := created] == store[userId := created];
  }

  /** A one-entry COLLECT on a known user whose property is a list or absent. */
  lemma CollectKnownList(store: Store, userId: string, name: string, items: seq<Raw>, now: Instant)
    requires WellKeyed(store) && |userId| > 0 && userId in store
    requires IsList(ListBase(Lookup(store[userId].properties, name)))
    ensures ProcessCommands(store, CollectCommand(userId, name, items), now, [name]) ==
      Success(store[userId := WithProperty(store[userId], name,
                Wrap(List(ListBase(Lookup(store[userId].properties, name)).value.items + items)))])
  {
    ProcessOneEntry(store, userId, Collect, name, List(items), now);
  }

  lemma CollectCumulativeOnKnownUser(store: Store, userId: string, name: string, xs: seq<Raw>, ys: seq<Raw>,
                                     now1: Instant, now2: Instant)
    requires WellKeyed(store) && |userId| > 0 && userId in store
    ensures var r1 := ProcessCommands(store, CollectCommand(userId, name, xs), now1, [name]);
            && (r1.Success? ==>
                  ProcessCommands(r1.value, CollectCommand(userId, name, ys), now2, [name])
                  == ProcessCommands(store, CollectCommand(userId, name, xs + ys), now1, [name]))
            && (r1.Failure? ==> ProcessCommands(store, CollectCommand(userId, name, xs + ys), now1, [name]) == r1)
  {
    if IsList(ListBase(Lookup(store[userId].properties, name))) {
      CollectTwiceOnList(store, userId, name, xs, ys, now1, now2);
    } else {
      ProcessOneEntry(store, userId, Collect, name, List(xs), now1);
      ProcessOneEntry(store, userId, Collect, name, List(xs + ys), now1);
    }
  }

  lemma CollectTwiceOnList(store: Store, userId: string, name: string, xs: seq<Raw>, ys: seq<Raw>,
                           now1: Instant, now2: Instant)
    requires WellKeyed(store) && |userId| > 0 && userId in store
    requires IsList(ListBase(Lookup(store[userId].properties, name)))
    ensures var r1 := ProcessCommands(store, CollectCommand(userId, name, xs), now1, [name]);
            && r1.Success?
            && ProcessCommands(r1.value, CollectCommand(userId, name, ys), now2, [name])
               == ProcessCommands(store, CollectCommand(userId, name, xs + ys), now1, [name])
  {
    var p := store[userId];
    var base := ListBase(Lookup(p.properties, name)).value.items;
    var p1 := WithProperty(p, name, Wrap(List(base + xs)));
    var p2 := WithProperty(p, name, Wrap(List(base + (xs + ys))));
    var s1 := store[userId := p1];
    assert ProcessCommands(store, CollectCommand(userId, name, xs), now1, [name]) == Success(s1) by {
      CollectKnownList(store, userId, name, xs, now1);
    }
    assert ProcessCommands(store, CollectCommand(userId, name, xs + ys), now1, [name]) == Success(store[userId := p2]) by {
      CollectKnownList(store, userId, name, xs + ys, now1);
    }
    assert ProcessCommands(s1, CollectCommand(userId, name, ys), now2, [name]) == Success(store[userId := p2]) by {
      assert WellKeyed(s1);
      assert Lookup(s1[userId].properties, name) == Some(Wrap(List(base + xs)));
      CollectKnownList(s1, userId, name, ys, now2);
      assert base + xs + ys == base + (xs + ys);
      assert WithProperty(p1, name, Wrap(List(base + xs + ys))) == p2;
      assert s1[userId := p2] == store[userId := p2];
    }
  }

  /** The increment scenario: {battleFought: 10, questsNotCompleted: 1}
      incremented by {battleFought: 20, questsNotCompleted: -1} becomes
      {battleFought: 30, questsNotCompleted: 0}, in either iteration order. */
  lemma IncrementScenario(userId: string, createdAt: Instant, now: Instant, order: seq<string>)
    requires |userId| > 0
    requires Enumerates(order, map["battleFought" := Number(20), "questsNotCompleted" := Number(-1)])
    ensures
      var store := map[userId := Profile(userId, createdAt,
                         map["battleFought" := Wrap(Number(10)), "questsNotCompleted" := Wrap(Number(1))])];
      var cmd := Command(userId, Some(Increment),
                         Some(map["battleFought" := Number(20), "questsNotCompleted" := Number(-1)]));
      ProcessCommands(store, cmd, now, order) ==
        Success(map[userId := Profile(userId, createdAt,
                  map["battleFought" := Wrap(Number(30)), "questsNotCompleted" := Wrap(Number(0))])])
  {
    var before := map["battleFought" := Wrap(Number(10)), "questsNotCompleted" := Wrap(Number(1))];
    var store := map[userId := Profile(userId, createdAt, before)];
    var m := map["battleFought" := Number(20), "questsNotCompleted" := Number(-1)];
    var cmd := Command(userId, Some(Increment), Some(m));
    IncrementAdds(store, cmd, now, order, m);
    var r := ProcessCommands(store, cmd, now, order);
    var expected := map["battleFought" := Wrap(Number(30)), "questsNotCompleted" := Wrap(Number(0))];
    assert r.value[userId].properties == expected;
    assert r.value[userId] == Profile(userId, createdAt, expected);
    assert r.value == map[userId := Profile(userId, createdAt, expected)];
  }

  /** The rejected increment scenario: with questsNotCompleted stored as the
      word "new", the command {battleFought: 10, questsNotCompleted: "new"}
      fails with IllegalArgument in either iteration order, although the
      word also arrives as the incoming value. */
  lemma IncrementOnStoredWordScenario(userId: string, createdAt: Instant, now: Instant, order: seq<string>)
    requires |userId| > 0
    requires Enumerates(order, map["battleFought" := Number(10), "questsNotCompleted" := Scalar("new")])
    ensures
      var store := map[userId := Profile(userId, createdAt,
                         map["battleFought" := Wrap(Number(10)), "questsNotCompleted" := Wrap(Scalar("new"))])];
      var cmd := Command(userId, Some(Increment),
                         Some(map["battleFought" := Number(10), "questsNotCompleted" := Scalar("new")]));
      ProcessCommands(store, cmd, now, order) == Failure(IllegalArgument)
  {
    var before := map["battleFought" := Wrap(Number(10)), "questsNotCompleted" := Wrap(Scalar("new"))];
    var store := map[userId := Profile(userId, createdAt, before)];
    var m := map["battleFought" := Number(10), "questsNotCompleted" := Scalar("new")];
    var cmd := Command(userId, Some(Increment), Some(m));
    assert !IsNumber(before["questsNotCompleted"]);
    IncrementRejectsStoredNonNumber(store, cmd, now, order, m, "questsNotCompleted");
  }

  /** The collect scenario: {inventory: [sword1, sword2, shield1]} collecting
      {inventory: [shield2]} becomes {inventory: [sword1, sword2, shield1, shield2]}. */
  lemma CollectScenario(userId: string, createdAt: Instant, now: Instant)
    requires |userId| > 0
    ensures
      var inventory := [Scalar("sword1"), Scalar("sword2"), Scalar("shield1")];
      var store := map[userId := Profile(userId, createdAt, map["inventory" := Wrap(List(inventory))])];
      ProcessCommands(store, CollectCommand(userId, "inventory", [Scalar("shield2")]), now, ["inventory"]) ==
        Success(map[userId := Profile(userId, createdAt,
                  map["inventory" := Wrap(List([Scalar("sword1"), Scalar("sword2"), Scalar("shield1"), Scalar("shield2")]))])])
  {
    var inventory := [Scalar("sword1"), Scalar("sword2"), Scalar("shield1")];
    var store := map[userId := Profile(userId, createdAt, map["inventory" := Wrap(List(inventory))])];
    var p := store[userId];
    ProcessOneEntry(store, userId, Collect, "inventory", List([Scalar("shield2")]), now);
    var merged := inventory + [Scalar("shield2")];
    assert merged == [Scalar("sword1"), Scalar("sword2"), Scalar("shield1"), Scalar("shield2")];
    assert Update(Collect, Lookup(p.properties, "inventory"), List([Scalar("shield2")])) == Success(Wrap(List(merged)));
    var p' := p.(properties := p.properties["inventory" := Wrap(List(merged))]);
    assert p'.properties == map["inventory" := Wrap(List(merged))];
    assert store[p.id := p'] == map[userId := p'];
  }
}

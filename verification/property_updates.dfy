/** The per-property update rules of REPLACE, INCREMENT and COLLECT, and the
    loop that applies them to every entry of a command in the map's iteration
    order.  The order is a parameter: Java's hash-map order is unspecified, and
    the lemmas here show that the outcome on success does not depend on it. */
module PropertyUpdates {
  import opened Results
  import opened PropertyValues
  import opened Commands

  /** The stored value under a name, if any. */
  function Lookup(props: map<string, PropertyValue>, name: string): Option<PropertyValue> {
    if name in props then Some(props[name]) else None
  }

  /** The value an INCREMENT starts from: the stored one, or zero. */
  function NumberBase(current: Option<PropertyValue>): PropertyValue {
    if current.Some? then current.value else Wrap(Number(0))
  }

  /** The value a COLLECT starts from: the stored one, or the empty list. */
  function ListBase(current: Option<PropertyValue>): PropertyValue {
    if current.Some? then current.value else Wrap(List([]))
  }

  /** The new value of one property.  REPLACE wraps the incoming value.
      INCREMENT and COLLECT first check the starting value's kind (a mismatch
      raises IllegalArgument), then cast the incoming value (a mismatch raises
      ClassCast), then add or append. */
  function Update(t: CommandType, current: Option<PropertyValue>, raw: Raw): (r: Result<PropertyValue>)
    ensures r.Failure? ==> r.error == IllegalArgument || r.error == ClassCast
    ensures t == Replace ==> r == Success(Wrap(raw))
    ensures t == Increment ==>
      (r.Success? <==> IsNumber(NumberBase(current)) && raw.Number?)
      && (r.Success? ==> r.value == Wrap(Number(NumberBase(current).value.n + raw.n)))
      && (!IsNumber(NumberBase(current)) ==> r == Failure(IllegalArgument))
      && (IsNumber(NumberBase(current)) && !raw.Number? ==> r == Failure(ClassCast))
    ensures t == Collect ==>
      (r.Success? <==> IsList(ListBase(current)) && raw.List?)
      && (r.Success? ==> r.value == Wrap(List(ListBase(current).value.items + raw.items)))
      && (!IsList(ListBase(current)) ==> r == Failure(IllegalArgument))
      && (IsList(ListBase(current)) && !raw.List? ==> r == Failure(ClassCast))
  {
    match t
    case Replace => Success(Wrap(raw))
    case Increment =>
      var base := NumberBase(current);
      if !base.value.Number? then Failure(IllegalArgument)
      else if !raw.Number? then Failure(ClassCast)
      else Success(Wrap(Number(base.value.n + raw.n)))
    case Collect =>
      var base := ListBase(current);
      if !base.value.List? then Failure(IllegalArgument)
      else if !raw.List? then Failure(ClassCast)
      else Success(Wrap(List(base.value.items + raw.items)))
  }

  /** The names an iteration order visits. */
  function Elems(order: seq<string>): (names: set<string>)
    ensures forall name :: name in names <==> name in order
  {
    set name | name in order
  }

  predicate Distinct(order: seq<string>) {
    forall i, j :: 0 <= i < j < |order| ==> order[i] != order[j]
  }

  /** `order` is one possible iteration order of the entries of `m`. */
  predicate Enumerates(order: seq<string>, m: map<string, Raw>) {
    Distinct(order) && Elems(order) == m.Keys
  }

  /** A single name enumerates a one-entry map. */
  lemma SingletonEnumerates(name: string, raw: Raw)
    ensures Enumerates([name], map[name := raw])
  {
  }

  /** The entry loop: apply `Update` to each named property in turn; the
      first failure ends the loop and discards the partial map. */
  function ApplyInOrder(t: CommandType, props: map<string, PropertyValue>, updates: map<string, Raw>,
                        order: seq<string>): (r: Result<map<string, PropertyValue>>)
    requires Elems(order) <= updates.Keys
    ensures r.Failure? ==> r.error == IllegalArgument || r.error == ClassCast
    decreases |order|
  {
    if |order| == 0 then Success(props)
    else
      var name := order[0];
      assert name in Elems(order);
      assert Elems(order[1..]) <= Elems(order);
      match Update(t, Lookup(props, name), updates[name])
      case Failure(e) => Failure(e)
      case Success(v) => ApplyInOrder(t, props[name := v], updates, order[1..])
  }

  /** A one-entry loop is a single `Update`. */
  lemma ApplyOne(t: CommandType, props: map<string, PropertyValue>, updates: map<string, Raw>, name: string)
    requires name in updates
    ensures ApplyInOrder(t, props, updates, [name]) ==
      match Update(t, Lookup(props, name), updates[name])
      case Failure(e) => Failure(e)
      case Success(v) => Success(props[name := v])
  {
  }

  /** Every named property in `names` accepts its update. */
  ghost predicate AllAccepted(t: CommandType, props: map<string, PropertyValue>, updates: map<string, Raw>,
                              names: set<string>)
    requires names <= updates.Keys
  {
    forall name :: name in names ==> Update(t, Lookup(props, name), updates[name]).Success?
  }

  /** The order-free description of a successful loop: each named property
      holds its updated value, every other property is kept. */
  ghost function Expected(t: CommandType, props: map<string, PropertyValue>, updates: map<string, Raw>,
                          names: set<string>): map<string, PropertyValue>
    requires names <= updates.Keys
    requires AllAccepted(t, props, updates, names)
  {
    map name | name in props.Keys + names ::
      if name in names then Update(t, Lookup(props, name), updates[name]).value else props[name]
  }

  /** Splitting the first name off a duplicate-free order. */
  lemma ElemsOfTail(order: seq<string>)
    requires |order| > 0 && Distinct(order)
    ensures Elems(order) == {order[0]} + Elems(order[1..])
    ensures order[0] !in Elems(order[1..])
    ensures Distinct(order[1..])
  {
    var rest := order[1..];
    forall x | x in Elems(order) ensures x in {order[0]} + Elems(rest) {
      var i :| 0 <= i < |order| && order[i] == x;
      if i > 0 { assert rest[i - 1] == x; }
    }
  }

  /** Updating one name first leaves the other names' updates, and the
      order-free result, as they were. */
  lemma ExpectedAfterOne(t: CommandType, props: map<string, PropertyValue>, updates: map<string, Raw>,
                         name: string, v: PropertyValue, rest: set<string>)
    requires name in updates && rest <= updates.Keys && name !in rest
    requires Update(t, Lookup(props, name), updates[name]) == Success(v)
    ensures AllAccepted(t, props[name := v], updates, rest) <==> AllAccepted(t, props, updates, {name} + rest)
    ensures AllAccepted(t, props[name := v], updates, rest) ==>
      Expected(t, props[name := v], updates, rest) == Expected(t, props, updates, {name} + rest)
  {
    var props' := props[name := v];
    forall x | x in rest
      ensures Lookup(props', x) == Lookup(props, x)
    {
    }
    if AllAccepted(t, props', updates, rest) {
      var e1 := Expected(t, props', updates, rest);
      var e2 := Expected(t, props, updates, {name} + rest);
      assert e1.Keys == e2.Keys;
      forall x | x in e1.Keys ensures e1[x] == e2[x] {
      }
    }
  }

  /** The loop succeeds exactly when every visited property accepts its
      update; it then yields the order-free `Expected` map, and a failure is
      the failure of one of the visited properties. */
  lemma {:induction false} ApplyInOrderMeetsSpec(t: CommandType, props: map<string, PropertyValue>,
                                                 updates: map<string, Raw>, order: seq<string>)
    requires Elems(order) <= updates.Keys
    requires Distinct(order)
    ensures ApplyInOrder(t, props, updates, order).Success? <==> AllAccepted(t, props, updates, Elems(order))
    ensures ApplyInOrder(t, props, updates, order).Success? ==>
      ApplyInOrder(t, props, updates, order).value == Expected(t, props, updates, Elems(order))
    ensures ApplyInOrder(t, props, updates, order).Failure? ==>
      exists name :: name in Elems(order) &&
        Update(t, Lookup(props, name), updates[name]) == Failure(ApplyInOrder(t, props, updates, order).error)
    decreases |order|
  {
    if |order| == 0 {
      assert Elems(order) == {};
      assert Expected(t, props, updates, Elems(order)) == props;
    } else {
      var name := order[0];
      var rest := order[1..];
      ElemsOfTail(order);
      match Update(t, Lookup(props, name), updates[name])
      case Failure(e) =>
        assert name in Elems(order);
      case Success(v) =>
        var props' := props[name := v];
        ApplyInOrderMeetsSpec(t, props', updates, rest);
        ExpectedAfterOne(t, props, updates, name, v, Elems(rest));
        var r' := ApplyInOrder(t, props', updates, rest);
        if r'.Failure? {
          var x :| x in Elems(rest) && Update(t, Lookup(props', x), updates[x]) == Failure(r'.error);
          assert Lookup(props', x) == Lookup(props, x);
        }
    }
  }
}

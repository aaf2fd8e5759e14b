/** The command data-transfer object: target user, operation type and the
    map of property name to raw value, with the case-insensitive parser that
    turns the wire name of an operation into a `CommandType`. */
module Commands {
  import opened Results
  import opened PropertyValues

  /** The three operations a command can request. */
  datatype CommandType = Replace | Increment | Collect

  /** A command as the transport hands it over.  The type and the properties
      may be absent (Java `null`); the user id is always present. */
  datatype Command = Command(
    userId: string,
    commandType: Option<CommandType>,
    properties: Option<map<string, Raw>>)

  /** The declared constant name of a variant, what `String.valueOf` yields. */
  function Name(t: CommandType): string {
    match t
    case Replace => "REPLACE"
    case Increment => "INCREMENT"
    case Collect => "COLLECT"
  }

  /** Every variant, each exactly once. */
  const AllTypes: seq<CommandType> := [Replace, Increment, Collect]

  /** Upper-cases one ASCII letter and leaves every other character alone. */
  function UpperChar(c: char): char {
    if 'a' <= c <= 'z' then (c as int - 32) as char else c
  }

  /** Upper-cases a string character by character. */
  function ToUpper(s: string): (u: string)
    ensures |u| == |s|
    ensures forall i :: 0 <= i < |s| ==> u[i] == UpperChar(s[i])
    ensures forall i :: 0 <= i < |u| ==> !('a' <= u[i] <= 'z')
    ensures forall i :: 0 <= i < |s| && !('a' <= s[i] <= 'z') ==> u[i] == s[i]
  {
    seq(|s|, i requires 0 <= i < |s| => UpperChar(s[i]))
  }

  /** Upper-casing twice is upper-casing once. */
  lemma ToUpperIdempotent(s: string)
    ensures ToUpper(ToUpper(s)) == ToUpper(s)
  {
  }

  /** Parses an operation name, ignoring case: the upper-cased text must be
      one of the three constant names, otherwise the lookup fails. */
  function ParseType(s: string): (r: Result<CommandType>)
    ensures r.Success? ==> Name(r.value) == ToUpper(s)
    ensures r.Failure? ==> r.error == IllegalArgument
    ensures r.Failure? ==> forall t :: Name(t) != ToUpper(s)
  {
    var u := ToUpper(s);
    if u == "REPLACE" then Success(Replace)
    else if u == "INCREMENT" then Success(Increment)
    else if u == "COLLECT" then Success(Collect)
    else Failure(IllegalArgument)
  }

  /** The all-fields constructor stores its arguments unchanged. */
  function NewCommand(userId: string, t: Option<CommandType>, properties: Option<map<string, Raw>>): (c: Command)
    ensures c.userId == userId && c.commandType == t && c.properties == properties
  {
    Command(userId, t, properties)
  }

  function SetUserId(c: Command, userId: string): (c': Command)
    ensures c'.userId == userId
    ensures c'.commandType == c.commandType && c'.properties == c.properties
  {
    c.(userId := userId)
  }

  /** Sets the type from its textual name; an unknown name raises and leaves
      no new command. */
  function SetType(c: Command, name: string): (r: Result<Command>)
    ensures r.Success? <==> exists t :: Name(t) == ToUpper(name)
    ensures r.Success? ==> r.value.commandType.Some? && Name(r.value.commandType.value) == ToUpper(name)
    ensures r.Success? ==> r.value.userId == c.userId && r.value.properties == c.properties
    ensures r.Failure? ==> r.error == IllegalArgument
  {
    match ParseType(name)
    case Success(t) => Success(c.(commandType := Some(t)))
    case Failure(e) =>
      assert ToUpper(name) != Name(Replace) && ToUpper(name) != Name(Increment) && ToUpper(name) != Name(Collect);
      Failure(e)
  }

  function SetProperties(c: Command, properties: Option<map<string, Raw>>): (c': Command)
    ensures c'.properties == properties
    ensures c'.userId == c.userId && c'.commandType == c.commandType
  {
    c.(properties := properties)
  }

  /** Upper-casing an all-upper-case name changes nothing. */
  lemma UpperOfName(t: CommandType)
    ensures ToUpper(Name(t)) == Name(t)
  {
  }

  /** Parsing succeeds with `t` exactly when the upper-cased text is the name of `t`. */
  lemma ParseTypeExactly(s: string, t: CommandType)
    ensures ParseType(s) == Success(t) <==> ToUpper(s) == Name(t)
  {
  }

  /** Round trip: setting the type from a variant's own name and reading it
      back yields that variant, and nothing else in the command changes. */
  lemma SetTypeNameRoundTrip(c: Command, t: CommandType)
    ensures SetType(c, Name(t)) == Success(c.(commandType := Some(t)))
  {
    UpperOfName(t);
  }

  /** Parsing depends only on the upper-cased text, so any spelling that
      differs only in letter case parses alike. */
  lemma ParseTypeIgnoresCase(s1: string, s2: string)
    requires ToUpper(s1) == ToUpper(s2)
    ensures ParseType(s1) == ParseType(s2)
  {
  }

  /** The lower-case, capitalised and upper-case spellings of "increment" all
      parse to `Increment`; an unrelated word is refused. */
  lemma IncrementSpellings()
    ensures ParseType("increment") == Success(Increment)
    ensures ParseType("Increment") == Success(Increment)
    ensures ParseType("INCREMENT") == Success(Increment)
    ensures ParseType("newProperty") == Failure(IllegalArgument)
  {
  }

  /** The enumeration has exactly three variants with three distinct names. */
  lemma ThreeVariants(t: CommandType)
    ensures t in AllTypes && |AllTypes| == 3
    ensures forall i, j :: 0 <= i < j < |AllTypes| ==> Name(AllTypes[i]) != Name(AllTypes[j])
  {
  }
}

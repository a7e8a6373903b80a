/** Log levels (src/helper/logging/LogLevel.py): five integer levels, looked up by value or,
    case-insensitively, by name. */
module LogLevels {
  import opened Faults

  datatype LogLevel = Debug | Info | Warning | Error | Critical
  {
    /** The standard logging module's numeric level. */
    function Value(): int
    {
      match this
      case Debug => 10
      case Info => 20
      case Warning => 30
      case Error => 40
      case Critical => 50
    }

    /** The member's name. */
    function Name(): string
    {
      match this
      case Debug => "DEBUG"
      case Info => "INFO"
      case Warning => "WARNING"
      case Error => "ERROR"
      case Critical => "CRITICAL"
    }
  }

  /** What `LogLevel(...)` may be called with: an integer, a string, or None. */
  datatype LevelArg = IntArg(i: int) | StrArg(s: string) | NoneArg

  /** The ValueError an unmatched argument raises. */
  const NotALevel: Fault := ValueError("not a valid LogLevel")

  /** `str.upper` on one character, for the characters whose upper case is an ASCII capital:
      the ASCII small letters and the dotless i. Every other character is kept; none of them
      upper-cases to a string that can complete a level name, so keeping it decides the same
      lookups. */
  function UpperChar(c: char): char
  {
    if 'a' <= c <= 'z' then (c as int - 32) as char
    else if c == 'ı' then 'I'
    else c
  }

  function LowerChar(c: char): char
  {
    if 'A' <= c <= 'Z' then (c as int + 32) as char else c
  }

  function Upper(s: string): (u: string)
    ensures |u| == |s|
  {
    if s == [] then [] else [UpperChar(s[0])] + Upper(s[1..])
  }

  function Lower(s: string): (l: string)
    ensures |l| == |s|
  {
    if s == [] then [] else [LowerChar(s[0])] + Lower(s[1..])
  }

  /** Lookup by value: the member with that number, if any. */
  function ByValue(v: int): (r: Option<LogLevel>)
    ensures r.Some? <==> exists l: LogLevel :: l.Value() == v
    ensures r.Some? ==> r.value.Value() == v
  {
    if v == 10 then assert Debug.Value() == v; Some(Debug)
    else if v == 20 then assert Info.Value() == v; Some(Info)
    else if v == 30 then assert Warning.Value() == v; Some(Warning)
    else if v == 40 then assert Error.Value() == v; Some(Error)
    else if v == 50 then assert Critical.Value() == v; Some(Critical)
    else
      assert forall l: LogLevel :: l.Value() != v;
      None
  }

  /** `cls[name]`: lookup by exact member name. */
  function ByName(name: string): (r: Option<LogLevel>)
    ensures r.Some? <==> exists l: LogLevel :: l.Name() == name
    ensures r.Some? ==> r.value.Name() == name
  {
    if name == "DEBUG" then assert Debug.Name() == name; Some(Debug)
    else if name == "INFO" then assert Info.Name() == name; Some(Info)
    else if name == "WARNING" then assert Warning.Name() == name; Some(Warning)
    else if name == "ERROR" then assert Error.Name() == name; Some(Error)
    else if name == "CRITICAL" then assert Critical.Name() == name; Some(Critical)
    else
      assert forall l: LogLevel :: l.Name() != name;
      None
  }

  /** `LogLevel(arg)`: an integer is looked up by value; a string is not a value, so
      `_missing_` looks up its upper-cased form by name; anything unmatched, and None, raises
      ValueError. */
  function Lookup(arg: LevelArg): (r: Outcome<LogLevel>)
    ensures r.Raise? ==> r.fault == NotALevel
    ensures arg.NoneArg? ==> r.Raise?
    ensures arg.IntArg? ==> (r.Return? <==> exists l: LogLevel :: l.Value() == arg.i)
    ensures arg.IntArg? && r.Return? ==> r.value.Value() == arg.i
    ensures arg.StrArg? ==> (r.Return? <==> exists l: LogLevel :: l.Name() == Upper(arg.s))
    ensures arg.StrArg? && r.Return? ==> r.value.Name() == Upper(arg.s)
  {
    match arg
    case IntArg(v) =>
      var m := ByValue(v);
      if m.Some? then Return(m.value) else Raise(NotALevel)
    case StrArg(s) =>
      var m := ByName(Upper(s));
      if m.Some? then Return(m.value) else Raise(NotALevel)
    case NoneArg => Raise(NotALevel)
  }

  /** The levels are strictly ordered DEBUG < INFO < WARNING < ERROR < CRITICAL, so distinct
      members have distinct values and distinct names. */
  lemma LevelsOrdered(a: LogLevel, b: LogLevel)
    ensures Debug.Value() < Info.Value() < Warning.Value() < Error.Value() < Critical.Value()
    ensures a.Value() == b.Value() <==> a == b
    ensures a.Name() == b.Name() <==> a == b
  {
  }

  /** Looking a member up by its value, or by its name, gives back the member. */
  lemma LookupRoundTrip(l: LogLevel)
    ensures Lookup(IntArg(l.Value())) == Return(l)
    ensures Lookup(StrArg(l.Name())) == Return(l)
  {
    var byValue := Lookup(IntArg(l.Value()));
    LevelsOrdered(l, byValue.value);
    CapitalsAreUpper(l.Name());
    var byName := Lookup(StrArg(l.Name()));
    LevelsOrdered(l, byName.value);
  }

  /** A string of ASCII capitals. */
  predicate Capitals(s: string)
  {
    forall i :: 0 <= i < |s| ==> 'A' <= s[i] <= 'Z'
  }

  /** `s` spells `name` with any mix of upper and lower case. */
  predicate SpellsIgnoringCase(s: string, name: string)
  {
    |s| == |name| && forall i :: 0 <= i < |s| ==> s[i] == name[i] || s[i] == LowerChar(name[i])
  }

  lemma {:induction false} CapitalsAreUpper(s: string)
    requires Capitals(s)
    ensures Upper(s) == s
  {
    if s != [] {
      CapitalsAreUpper(s[1..]);
    }
  }

  /** Upper-casing undoes any mix of cases over a name of capitals. */
  lemma {:induction false} UpperIgnoresCase(s: string, name: string)
    requires Capitals(name) && SpellsIgnoringCase(s, name)
    ensures Upper(s) == name
  {
    if s != [] {
      assert SpellsIgnoringCase(s[1..], name[1..]) by {
        forall i | 0 <= i < |s[1..]|
          ensures s[1..][i] == name[1..][i] || s[1..][i] == LowerChar(name[1..][i])
        {
          assert s[1..][i] == s[i + 1];
        }
      }
      UpperIgnoresCase(s[1..], name[1..]);
      assert Upper(s) == [UpperChar(s[0])] + Upper(s[1..]);
      assert name == [name[0]] + name[1..];
    }
  }

  /** The name lookup is case-insensitive: any spelling of a member's name in any mix of cases
      ("debug", "DeBuG") finds that member. */
  lemma CaseInsensitiveLookup(l: LogLevel, s: string)
    requires SpellsIgnoringCase(s, l.Name())
    ensures Lookup(StrArg(s)) == Return(l)
  {
    UpperIgnoresCase(s, l.Name());
    var r := Lookup(StrArg(s));
    LevelsOrdered(l, r.value);
  }

  /** The all-lower-case name is one such spelling. */
  lemma LowerCaseLookup(l: LogLevel)
    ensures Lookup(StrArg(Lower(l.Name()))) == Return(l)
  {
    LowerSpells(l.Name());
    CaseInsensitiveLookup(l, Lower(l.Name()));
  }

  lemma {:induction false} LowerSpells(s: string)
    ensures SpellsIgnoringCase(Lower(s), s)
  {
    if s != [] {
      LowerSpells(s[1..]);
      assert Lower(s) == [LowerChar(s[0])] + Lower(s[1..]);
    }
  }

  /** An unknown name and the empty name raise ValueError. */
  lemma UnknownNamesRejected()
    ensures Lookup(StrArg("NOT_A_LEVEL")) == Raise(NotALevel)
    ensures Lookup(StrArg("")) == Raise(NotALevel)
  {
    UnmatchedLength("NOT_A_LEVEL");
    UnmatchedLength("");
  }

  /** None, and a number that is not a level, raise ValueError. */
  lemma NonLevelsRejected(v: int)
    requires v % 10 != 0 || v < 10 || v > 50
    ensures Lookup(NoneArg) == Raise(NotALevel)
    ensures Lookup(IntArg(v)) == Raise(NotALevel)
  {
  }

  /** A string whose length is no level name's length names no level. */
  lemma UnmatchedLength(s: string)
    requires |s| !in {4, 5, 7, 8}
    ensures Lookup(StrArg(s)) == Raise(NotALevel)
  {
    forall l: LogLevel
      ensures l.Name() != Upper(s)
    {
      assert |l.Name()| in {4, 5, 7, 8};
    }
  }
}

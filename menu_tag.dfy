/** The menu identities of the settings screen and their string form
    (`MenuTag.kt`): a closed enumeration whose entries carry a tag string and a
    sub-type (-1 for none), the serialiser `toString` and the parser
    `getMenuTag(String?)` with its lookup `getMenuTag(String, Int)`. */
module MenuTags {
  import opened Kotlin
  import opened Decimal

  /** The sentinel sub-type meaning "no sub-type". */
  const NoSubType: Int32 := -1

  /** The eight declared entries. */
  datatype MenuTag =
    | Config
    | ConfigGeneral
    | ConfigInterface
    | Controller
    | Graphics
    | Hacks
    | Debug
    | Enhancements
  {
    /** The `tag` property, fixed by the entry's declaration. */
    function Tag(): string {
      match this
      case Config => "config"
      case ConfigGeneral => "config_general"
      case ConfigInterface => "config_interface"
      case Controller => "controller"
      case Graphics => "graphics"
      case Hacks => "hacks"
      case Debug => "debug"
      case Enhancements => "enhancements"
    }

    /** The `subType` property. It starts at -1 and only the two-argument
        constructor changes it; every entry is declared with the one-argument
        constructor, so it stays -1. */
    function SubType(): Int32 {
      NoSubType
    }
  }

  /** `MenuTag.entries`, in declaration order. */
  const Entries: seq<MenuTag> :=
    [Config, ConfigGeneral, ConfigInterface, Controller, Graphics, Hacks, Debug, Enhancements]

  /** The wire form of a (tag, sub-type) pair: the tag alone for the sentinel,
      otherwise the tag, a '|' and the decimal sub-type, which reads back as the
      same sub-type. */
  function Render(tag: string, subType: Int32): (r: string)
    ensures subType == NoSubType ==> r == tag
    ensures subType != NoSubType ==>
      |r| > |tag| + 1 && r[..|tag|] == tag && r[|tag|] == '|' && ParseInt(r[|tag| + 1..]) == Some(subType)
  {
    if subType != NoSubType then
      var r := tag + "|" + IntToString(subType);
      assert r[|tag| + 1..] == IntToString(subType);
      ParseRendered(subType);
      r
    else tag
  }

  /** `MenuTag.toString()`. */
  function Serialize(t: MenuTag): string {
    Render(t.Tag(), t.SubType())
  }

  /** `String.indexOf(Char)`: the first position of `c` in `s`, or -1. */
  function IndexOf(s: string, c: char): (r: int)
    ensures r == -1 <==> c !in s
    ensures r != -1 ==> 0 <= r < |s| && s[r] == c && c !in s[..r]
  {
    if s == [] then -1
    else if s[0] == c then 0
    else
      var k := IndexOf(s[1..], c);
      assert s[1..] == s[1..][..];
      if k == -1 then -1
      else
        assert s[..k + 1] == [s[0]] + s[1..][..k];
        k + 1
  }

  predicate Matches(t: MenuTag, tag: string, subType: int) {
    t.Tag() == tag && t.SubType() == subType
  }

  /** The loop of `getMenuTag(String, Int)`: the first entry whose tag and
      sub-type both match, or None when none does. */
  function Find(entries: seq<MenuTag>, tag: string, subType: int): (r: Option<MenuTag>)
    ensures r.None? <==> forall t :: t in entries ==> !Matches(t, tag, subType)
    ensures r.Some? ==>
      (exists i :: 0 <= i < |entries| && entries[i] == r.value
         && Matches(r.value, tag, subType)
         && forall j :: 0 <= j < i ==> !Matches(entries[j], tag, subType))
  {
    if entries == [] then None
    else if Matches(entries[0], tag, subType) then Some(entries[0])
    else
      var r := Find(entries[1..], tag, subType);
      assert forall t :: t in entries ==> t == entries[0] || t in entries[1..];
      if r.Some? then
        var i :| 0 <= i < |entries[1..]| && entries[1..][i] == r.value
          && Matches(r.value, tag, subType)
          && forall j :: 0 <= j < i ==> !Matches(entries[1..][j], tag, subType);
        assert entries[i + 1] == r.value;
        assert forall j :: 0 <= j < i + 1 ==> !Matches(entries[j], tag, subType) by {
          forall j | 0 <= j < i + 1 ensures !Matches(entries[j], tag, subType) {
            if j > 0 { assert entries[j] == entries[1..][j - 1]; }
          }
        }
        r
      else r
  }

  /** What `getMenuTag` produces: no menu (null), a menu, or an exception. */
  datatype Parsed = NoMenu | Resolved(tag: MenuTag) | Thrown(error: Exception)

  /** `getMenuTag(String, Int)`: the registered entry for the pair, or
      IllegalArgumentException; never a substitute entry. */
  function Resolve(tag: string, subType: int): Parsed {
    match Find(Entries, tag, subType)
    case Some(t) => Resolved(t)
    case None => Thrown(IllegalArgumentException)
  }

  /** `getMenuTag(String?)`: null or "" is no menu; otherwise the text is split
      at its first '|', the suffix goes through `toInt` (sub-type -1 when there
      is no '|'), and the pair is looked up. */
  function Parse(input: Option<string>): Parsed {
    if IsNullOrEmpty(input) then NoMenu
    else
      var s := input.value;
      var sep := IndexOf(s, '|');
      if sep == -1 then Resolve(s, NoSubType)
      else
        match ParseInt(s[sep + 1..])
        case None => Thrown(NumberFormatException)
        case Some(subType) => Resolve(s[..sep], subType)
  }

  // ---------------------------------------------------------------------------
  // The registry

  /** Every value of the enumeration is one of its declared entries, and the tag
      strings are non-empty, free of '|' and pairwise distinct. */
  lemma RegistryWellFormed(t: MenuTag, u: MenuTag)
    ensures t in Entries
    ensures t.Tag() != "" && '|' !in t.Tag()
    ensures t.Tag() == u.Tag() ==> t == u
  {
    match t
    case Config =>
    case ConfigGeneral =>
    case ConfigInterface =>
    case Controller =>
    case Graphics =>
    case Hacks =>
    case Debug =>
    case Enhancements =>
  }

  /** Each entry serialises to exactly its tag, with no '|' in it. */
  lemma SerializeIsTag(t: MenuTag)
    ensures Serialize(t) == t.Tag() && '|' !in Serialize(t)
  {
    RegistryWellFormed(t, t);
  }

  // ---------------------------------------------------------------------------
  // Lookup

  /** Lookup never substitutes: a resolved entry has exactly the requested tag
      and sub-type, and the lookup fails with IllegalArgumentException exactly
      when no entry has them. */
  lemma ResolveExact(tag: string, subType: int)
    ensures Resolve(tag, subType).Resolved? || Resolve(tag, subType) == Thrown(IllegalArgumentException)
    ensures Resolve(tag, subType).Resolved? ==> Matches(Resolve(tag, subType).tag, tag, subType)
    ensures Resolve(tag, subType).Thrown? <==> forall t: MenuTag :: !Matches(t, tag, subType)
  {
    forall t: MenuTag ensures t in Entries {
      RegistryWellFormed(t, t);
    }
  }

  /** The pair of a declared entry resolves to that entry. */
  lemma ResolveEntry(t: MenuTag)
    ensures Resolve(t.Tag(), t.SubType()) == Resolved(t)
  {
    RegistryWellFormed(t, t);
    var r := Find(Entries, t.Tag(), t.SubType());
    RegistryWellFormed(t, r.value);
  }

  // ---------------------------------------------------------------------------
  // Parsing

  /** null and "" denote no menu, never an error, and they are the only inputs
      that do. */
  lemma ParseAbsent(input: Option<string>)
    ensures Parse(input) == NoMenu <==> IsNullOrEmpty(input)
  {
    if !IsNullOrEmpty(input) {
      var s := input.value;
      var sep := IndexOf(s, '|');
      if sep == -1 {
        ResolveExact(s, NoSubType);
      } else if ParseInt(s[sep + 1..]).Some? {
        ResolveExact(s[..sep], ParseInt(s[sep + 1..]).value);
      }
    }
  }

  /** Without a '|', the whole text is the tag and the sub-type is -1. */
  lemma ParseWithoutSeparator(s: string)
    requires s != "" && '|' !in s
    ensures Parse(Some(s)) == Resolve(s, NoSubType)
  {
  }

  /** With a '|', the text before the first one is the tag and the rest must
      be a number, else NumberFormatException. */
  lemma ParseWithSeparator(prefix: string, suffix: string)
    requires '|' !in prefix
    ensures ParseInt(suffix).None? ==> Parse(Some(prefix + "|" + suffix)) == Thrown(NumberFormatException)
    ensures ParseInt(suffix).Some? ==>
      Parse(Some(prefix + "|" + suffix)) == Resolve(prefix, ParseInt(suffix).value)
  {
    var s := prefix + "|" + suffix;
    assert s[|prefix|] == '|';
    assert s[..|prefix|] == prefix;
    var sep := IndexOf(s, '|');
    assert sep == |prefix|;
    assert s[sep + 1..] == suffix;
  }

  /** A second '|' makes the suffix a malformed number. */
  lemma ParseSecondSeparator(prefix: string, suffix: string)
    requires '|' !in prefix && '|' in suffix
    ensures Parse(Some(prefix + "|" + suffix)) == Thrown(NumberFormatException)
  {
    ParseWithSeparator(prefix, suffix);
    var i :| 0 <= i < |suffix| && suffix[i] == '|';
    if i == 0 {
      assert !AllDigits(suffix);
    } else {
      ParseRejects(suffix, i);
    }
  }

  /** The wire form of a '|'-free tag and any sub-type parses back to the
      lookup of that very pair. */
  lemma ParseRender(tag: string, subType: Int32)
    requires tag != "" && '|' !in tag
    ensures Parse(Some(Render(tag, subType))) == Resolve(tag, subType)
  {
    if subType != NoSubType {
      ParseRendered(subType);
      ParseWithSeparator(tag, IntToString(subType));
      assert Render(tag, subType) == tag + "|" + IntToString(subType);
    }
  }

  /** Round trip: every entry parses back from its serialised form. */
  lemma RoundTrip(t: MenuTag)
    ensures Parse(Some(Serialize(t))) == Resolved(t)
  {
    RegistryWellFormed(t, t);
    ParseRender(t.Tag(), t.SubType());
    ResolveEntry(t);
  }

  /** `s` names entry `t`: it is the tag alone, or the tag, a '|' and a number
      whose value is -1. */
  predicate NamesEntry(s: string, t: MenuTag) {
    var n := |t.Tag()|;
    s == t.Tag() ||
    (|s| > n && s[..n] == t.Tag() && s[n] == '|' && ParseInt(s[n + 1..]) == Some(NoSubType))
  }

  /** A text that parses to an entry names it. */
  lemma ParseResolvedSound(s: string, t: MenuTag)
    requires Parse(Some(s)) == Resolved(t)
    ensures NamesEntry(s, t)
  {
    var sep := IndexOf(s, '|');
    if sep == -1 {
      ResolveExact(s, NoSubType);
    } else {
      ResolveExact(s[..sep], ParseInt(s[sep + 1..]).value);
      assert s[..sep] == t.Tag();
    }
  }

  /** A '|'-free tag alone, or followed by a '|' and a rendering of -1, is
      looked up with the sentinel sub-type. */
  lemma ParseSentinelForm(tag: string, s: string)
    requires tag != "" && '|' !in tag
    requires s == tag ||
      (|s| > |tag| && s[..|tag|] == tag && s[|tag|] == '|' && ParseInt(s[|tag| + 1..]) == Some(NoSubType))
    ensures Parse(Some(s)) == Resolve(tag, NoSubType)
  {
    if s == tag {
      ParseWithoutSeparator(tag);
    } else {
      var rest := s[|tag| + 1..];
      assert s == tag + "|" + rest;
      ParseWithSeparator(tag, rest);
    }
  }

  /** A text that names an entry parses to it. */
  lemma ParseResolvedComplete(s: string, t: MenuTag)
    requires NamesEntry(s, t)
    ensures Parse(Some(s)) == Resolved(t)
  {
    RegistryWellFormed(t, t);
    ResolveEntry(t);
    ParseSentinelForm(t.Tag(), s);
  }

  /** The texts that parse to an entry are exactly the ones that name it:
      "config" and "config|-1" (or "config|-01") are CONFIG, "config|0" is not. */
  lemma ParseResolvedIff(s: string, t: MenuTag)
    ensures Parse(Some(s)) == Resolved(t) <==> NamesEntry(s, t)
  {
    if Parse(Some(s)) == Resolved(t) { ParseResolvedSound(s, t); }
    if NamesEntry(s, t) { ParseResolvedComplete(s, t); }
  }

  /** No entry has the tag "bogus". */
  lemma BogusIsNoTag(t: MenuTag)
    ensures t.Tag() != "bogus"
  {
    match t
    case Config =>
    case ConfigGeneral =>
    case ConfigInterface =>
    case Controller =>
    case Graphics =>
    case Hacks =>
    case Debug =>
    case Enhancements =>
  }

  /** "config" is CONFIG. */
  lemma ParseConfig()
    ensures Parse(Some("config")) == Resolved(Config)
  {
    ParseResolvedComplete("config", Config);
  }

  /** "config|-1" is CONFIG too: its sub-type is the sentinel. */
  lemma ParseConfigMinusOne()
    ensures Parse(Some("config|-1")) == Resolved(Config)
  {
    ParseAcceptsExamples();
    assert "config|-1"[..6] == "config" && "config|-1"[7..] == "-1";
    ParseResolvedComplete("config|-1", Config);
  }

  /** "config|0" is a lookup error: CONFIG is registered only with -1. */
  lemma ParseConfigZero()
    ensures Parse(Some("config|0")) == Thrown(IllegalArgumentException)
  {
    assert "config|0" == "config" + "|" + "0";
    ParseAcceptsExamples();
    ParseWithSeparator("config", "0");
    ResolveExact("config", 0);
  }

  /** An unknown tag is a lookup error. */
  lemma ParseUnknownTag()
    ensures Parse(Some("bogus")) == Thrown(IllegalArgumentException)
  {
    ParseWithoutSeparator("bogus");
    ResolveExact("bogus", NoSubType);
    forall t: MenuTag ensures t.Tag() != "bogus" { BogusIsNoTag(t); }
  }

  /** A non-numeric sub-type is a format error. */
  lemma ParseNonNumeric()
    ensures Parse(Some("bogus|notanumber")) == Thrown(NumberFormatException)
  {
    assert "bogus|notanumber" == "bogus" + "|" + "notanumber";
    ParseRejectsExamples();
    ParseWithSeparator("bogus", "notanumber");
  }

  /** A second '|' is a format error even for a registered tag. */
  lemma ParseTwoSeparators()
    ensures Parse(Some("config|1|2")) == Thrown(NumberFormatException)
  {
    assert "config|1|2" == "config" + "|" + "1|2";
    assert "1|2"[1] == '|';
    ParseSecondSeparator("config", "1|2");
  }
}

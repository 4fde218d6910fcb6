/** The parts of a key, section by section of the endpoint's format. */
module RouteIds {
  import opened Wrappers
  import opened RouteKey

  /** The text between the slashes. */
  function Sections(rest: string): (sections: seq<string>)
    ensures sections != []
    decreases |rest|
  {
    var n := Cspn(rest);
    [rest[..n]] + if n == |rest| then [] else Sections(rest[n + 1..])
  }

  /** Those after the first. */
  function MoreSections(rest: string): seq<string> {
    if Cspn(rest) == |rest| then [] else Sections(rest[Cspn(rest) + 1..])
  }

  /** The section in front of the k-th one, `prev` being in front of all. */
  function Before(prev: string, sections: seq<string>, k: nat): string
    requires k <= |sections|
  {
    if k == 0 then prev else sections[k - 1]
  }

  predicate NamesMajor(section: string) {
    StartsWith(section, "channels") || StartsWith(section, "guilds")
  }

  /** The k-th section stands for the id of a channel or a guild. */
  predicate IdSection(prev: string, sections: seq<string>, k: nat)
    requires k < |sections|
  {
    sections[k] == "%lu" && NamesMajor(Before(prev, sections, k))
  }

  /** How many sections have a part in the key: all up to the first that begins with `reactions`. */
  function Cut(prev: string, sections: seq<string>): (n: nat)
    ensures n <= |sections|
    decreases |sections|
  {
    if sections == [] || StartsWith(prev, "reactions") then 0 else 1 + Cut(sections[0], sections[1..])
  }

  /** The cut comes after the first `reactions`, or nowhere. */
  lemma {:induction false} CutAtReactions(prev: string, sections: seq<string>, k: nat)
    ensures k < Cut(prev, sections) ==> !StartsWith(Before(prev, sections, k), "reactions")
    ensures Cut(prev, sections) < |sections| ==> StartsWith(Before(prev, sections, Cut(prev, sections)), "reactions")
    decreases |sections|
  {
    if sections != [] && !StartsWith(prev, "reactions") {
      CutAtReactions(sections[0], sections[1..], if k > 0 then k - 1 else 0);
      if k > 1 && k < Cut(prev, sections) {
        assert Before(sections[0], sections[1..], k - 1) == Before(prev, sections, k);
      }
    }
  }

  /** The arguments that the first k sections leave. */
  function Left(sections: seq<string>, args: seq<Arg>, k: nat): Option<seq<Arg>>
    requires k <= |sections|
  {
    if k == 0 then Some(args)
    else
      match Consume(sections[0], args, 0)
      case None => None
      case Some((rest, _)) => Left(sections[1..], rest, k - 1)
  }

  /** The id that is the next argument at the k-th section. */
  function IdAt(sections: seq<string>, args: seq<Arg>, k: nat): Option<nat>
    requires k < |sections|
  {
    match Left(sections, args, k)
    case None => None
    case Some(left) => if left != [] && left[0].Id? then Some(left[0].value) else None
  }

  // ------------------------------------------------------------------------ one section

  lemma ConsumeId(args: seq<Arg>)
    ensures Consume("%lu", args, 0) ==
              if args != [] && args[0].Id? then Some((args[1..], args[0].value)) else None
  {
    var s := "%lu";
    assert s[1..] == "lu" && s[1..][1..] == "u" && "u"[1..] == "";
    Mismatch(s[1..], "s", 0);
    Mismatch(s[1..], "d", 0);
    assert StartsWith(s[1..], "lu");
    if args != [] && args[0].Id? {
      ConsumeNext("lu", args[1..], args[0].value);
      ConsumeNext("u", args[1..], args[0].value);
      assert Consume("", args[1..], args[0].value) == Some((args[1..], args[0].value));
    }
  }

  lemma PrintId(args: seq<Arg>)
    requires Printf("%lu", args).Some?
    ensures args != [] && args[0].Id? && Printf("%lu", args).value == (Digits(args[0].value), args[1..])
  {
    var s := "%lu";
    assert s[1..] == "lu" && s[3..] == "";
    Mismatch(s[1..], "s", 0);
    Mismatch(s[1..], "d", 0);
    assert Printf("", args[1..]) == Some(("", args[1..]));
    assert Digits(args[0].value) + "" == Digits(args[0].value);
  }

  /** A beginning of `%lu` that is a section by itself is all of it, or nothing. */
  lemma MajorIsWhole(section: string, args: seq<Arg>)
    requires StartsWith("%lu", section) && Consume(section, args, 0).Some?
    ensures section == "%lu" || section == ""
  {
    assert "%"[1..] == "" && "%l"[1..] == "l";
    Mismatch("l", "s", 0);
    Mismatch("l", "d", 0);
    Mismatch("l", "lu", 1);
    assert "%lu"[..0] == "" && "%lu"[..1] == "%" && "%lu"[..2] == "%l" && "%lu"[..3] == "%lu";
    assert section == "%lu"[..|section|];
  }

  /** The part of one section: the id, if it is one, and else the section. An empty section after
      `channels` or `guilds` counts as an id that no argument gives. */
  predicate PartIs(prev: string, sections: seq<string>, args: seq<Arg>, k: nat, part: string)
    requires k < |sections|
  {
    if IdSection(prev, sections, k) then
      IdAt(sections, args, k).Some? && part == Digits(IdAt(sections, args, k).value)
    else if sections[k] == "" && NamesMajor(Before(prev, sections, k)) then part == "0"
    else part == sections[k]
  }

  lemma FirstPart(prev: string, sections: seq<string>, args: seq<Arg>, args1: seq<Arg>, id: nat)
    requires sections != [] && Consume(sections[0], args, 0) == Some((args1, id))
    ensures PartIs(prev, sections, args, 0, if IsMajor(prev, sections[0]) then Digits(id) else sections[0])
  {
    var section := sections[0];
    assert StartsWith("%lu", "%lu") && StartsWith("%lu", "");
    if StartsWith("%lu", section) {
      MajorIsWhole(section, args);
      ConsumeId(args);
      assert Digits(0) == "0";
    }
  }

  lemma LaterPart(prev: string, sections: seq<string>, args: seq<Arg>, args1: seq<Arg>, id: nat, k: nat, part: string)
    requires k + 1 < |sections| && Consume(sections[0], args, 0) == Some((args1, id))
    ensures PartIs(sections[0], sections[1..], args1, k, part) <==> PartIs(prev, sections, args, k + 1, part)
  {
    assert Before(sections[0], sections[1..], k) == Before(prev, sections, k + 1);
    hide Digits, StartsWith, Consume;
  }

  // ------------------------------------------------------------------------- all parts

  /** The key has one part for each section up to the cut, and each part is as its section says. */
  lemma {:induction false} PartsAre(prev: string, rest: string, args: seq<Arg>, parts: seq<string>, k: nat)
    requires Pieces(prev, rest, args) == Some(parts)
    ensures |parts| == Cut(prev, Sections(rest))
    ensures k < |parts| ==> PartIs(prev, Sections(rest), args, k, parts[k])
    decreases |rest|
  {
    if !StartsWith(prev, "reactions") {
      var n := Cspn(rest);
      var sections := Sections(rest);
      PiecesUnfold(prev, rest, args, parts);
      var (args1, id) := Consume(rest[..n], args, 0).value;
      hide *;
      SectionsAre(rest);
      if n < |rest| {
        PartsAre(rest[..n], rest[n + 1..], args1, parts[1..], if k > 0 then k - 1 else 0);
        assert sections[1..] == Sections(rest[n + 1..]) by {
          NoSectionMore(rest);
        }
      } else {
        NoSectionMore(rest);
      }
      PartsStep(prev, sections, args, args1, id, parts, k);
    }
  }

  lemma NoSectionMore(rest: string)
    ensures MoreSections(rest) == if Cspn(rest) == |rest| then [] else Sections(rest[Cspn(rest) + 1..])
  {
    hide Cspn, Sections;
  }

  /** The first section's part, before those of the others. */
  lemma PartsStep(prev: string, sections: seq<string>, args: seq<Arg>, args1: seq<Arg>, id: nat,
                  parts: seq<string>, k: nat)
    requires !StartsWith(prev, "reactions") && sections != [] && parts != []
    requires Consume(sections[0], args, 0) == Some((args1, id))
    requires parts[0] == if IsMajor(prev, sections[0]) then Digits(id) else sections[0]
    requires |sections| > 1 ==> |parts[1..]| == Cut(sections[0], sections[1..])
    requires |sections| > 1 && 0 < k < |parts| ==> PartIs(sections[0], sections[1..], args1, k - 1, parts[k])
    requires |sections| == 1 ==> |parts| == 1
    ensures |parts| == Cut(prev, sections)
    ensures k < |parts| ==> PartIs(prev, sections, args, k, parts[k])
  {
    hide Consume, Digits, IsMajor, PartIs, StartsWith;
    FirstPart(prev, sections, args, args1, id);
    if 0 < k < |parts| && |sections| > 1 {
      LaterPart(prev, sections, args, args1, id, k - 1, parts[k]);
    }
  }

  /** A key is its method, a multipart POST counting as a POST, and its parts, each after a colon. */
  lemma KeyIsParts(h: Http, m: nat, fmt: string, args: seq<Arg>) returns (parts: seq<string>)
    requires fmt != [] && Key(h, m, fmt, args).Some?
    ensures Key(h, m, fmt, args).value == ":" + Digits(if m == h.mimePost then h.post else m) + Joined(parts, ":")
    ensures |parts| == Cut("", Sections(fmt[1..]))
    ensures forall k :: 0 <= k < |parts| ==> PartIs("", Sections(fmt[1..]), args, k, parts[k])
  {
    parts := Pieces("", fmt[1..], args).value;
    PartsAre("", fmt[1..], args, parts, 0);
    forall k | 0 <= k < |parts|
      ensures PartIs("", Sections(fmt[1..]), args, k, parts[k])
    {
      PartsAre("", fmt[1..], args, parts, k);
    }
  }

  /** There is a key, that is, no assertion fails, exactly if the format takes the arguments it is given and
      the key with its terminator fits 256 characters. */
  lemma KeyFitsIff(h: Http, m: nat, fmt: string, args: seq<Arg>)
    requires fmt != []
    ensures Key(h, m, fmt, args).Some? <==>
              match Pieces("", fmt[1..], args)
              case None => false
              case Some(parts) => |":" + Digits(if m == h.mimePost then h.post else m) + Joined(parts, ":")| < 256
  {
  }

  // ------------------------------------------------------------------- the same key

  /** Both have the same id wherever the key has one. */
  ghost predicate SameIds(prev: string, sections: seq<string>, a: seq<Arg>, b: seq<Arg>) {
    forall k :: 0 <= k < Cut(prev, sections) && IdSection(prev, sections, k) ==>
      IdAt(sections, a, k) == IdAt(sections, b, k)
  }

  lemma SameIdsUnfold(prev: string, sections: seq<string>, a: seq<Arg>, b: seq<Arg>, a1: seq<Arg>, b1: seq<Arg>,
                      idA: nat, idB: nat)
    requires sections != [] && !StartsWith(prev, "reactions")
    requires Consume(sections[0], a, 0) == Some((a1, idA)) && Consume(sections[0], b, 0) == Some((b1, idB))
    ensures SameIds(prev, sections, a, b) <==>
              (IdSection(prev, sections, 0) ==> IdAt(sections, a, 0) == IdAt(sections, b, 0))
              && SameIds(sections[0], sections[1..], a1, b1)
  {
    var more := sections[1..];
    hide StartsWith, Consume, NamesMajor;
    forall k | 0 <= k < |more|
      ensures IdSection(sections[0], more, k) <==> IdSection(prev, sections, k + 1)
      ensures IdAt(more, a1, k) == IdAt(sections, a, k + 1) && IdAt(more, b1, k) == IdAt(sections, b, k + 1)
    {
      assert Before(sections[0], more, k) == Before(prev, sections, k + 1);
    }
    if SameIds(prev, sections, a, b) {
      forall k | 0 <= k < Cut(sections[0], more) && IdSection(sections[0], more, k)
        ensures IdAt(more, a1, k) == IdAt(more, b1, k)
      {
        assert IdSection(prev, sections, k + 1);
      }
    } else {
      var k :| 0 <= k < Cut(prev, sections) && IdSection(prev, sections, k)
               && IdAt(sections, a, k) != IdAt(sections, b, k);
      assert k > 0 ==> IdSection(sections[0], more, k - 1) && IdAt(more, a1, k - 1) != IdAt(more, b1, k - 1);
    }
  }

  lemma FirstIds(prev: string, sections: seq<string>, a: seq<Arg>, b: seq<Arg>, a1: seq<Arg>, b1: seq<Arg>,
                 idA: nat, idB: nat)
    requires sections != []
    requires Consume(sections[0], a, 0) == Some((a1, idA)) && Consume(sections[0], b, 0) == Some((b1, idB))
    ensures (IsMajor(prev, sections[0]) ==> idA == idB) <==>
              (IdSection(prev, sections, 0) ==> IdAt(sections, a, 0) == IdAt(sections, b, 0))
  {
    assert StartsWith("%lu", "%lu");
    if StartsWith("%lu", sections[0]) {
      MajorIsWhole(sections[0], a);
      ConsumeId(a);
      ConsumeId(b);
    }
  }

  lemma {:induction false} MajorIdsAre(prev: string, rest: string, a: seq<Arg>, b: seq<Arg>)
    requires Pieces(prev, rest, a).Some? && Pieces(prev, rest, b).Some?
    ensures MajorIds(prev, rest, a) == MajorIds(prev, rest, b) <==> SameIds(prev, Sections(rest), a, b)
    decreases |rest|
  {
    if !StartsWith(prev, "reactions") {
      var n := Cspn(rest);
      var sections := Sections(rest);
      SectionsAre(rest);
      hide Sections, Cspn, Pieces, Consume, Digits, StartsWith, IsMajor, Joined, SameIds;
      PiecesUnfold(prev, rest, a, Pieces(prev, rest, a).value);
      PiecesUnfold(prev, rest, b, Pieces(prev, rest, b).value);
      var (a1, idA) := Consume(rest[..n], a, 0).value;
      var (b1, idB) := Consume(rest[..n], b, 0).value;
      var major := IsMajor(prev, rest[..n]);
      var x := if n == |rest| then [] else MajorIds(rest[..n], rest[n + 1..], a1);
      var y := if n == |rest| then [] else MajorIds(rest[..n], rest[n + 1..], b1);
      MajorIdsUnfold(prev, rest, a, a1, idA);
      MajorIdsUnfold(prev, rest, b, b1, idB);
      SameIdsUnfold(prev, sections, a, b, a1, b1, idA, idB);
      FirstIds(prev, sections, a, b, a1, b1, idA, idB);
      hide MajorIds;
      TakeOff(if major then [idA] else [], if major then [idB] else [], x, y);
      if n < |rest| {
        MajorIdsAre(rest[..n], rest[n + 1..], a1, b1);
      } else {
        NoMoreIds(rest[..n], a1, b1);
      }
    }
  }

  lemma MajorIdsUnfold(prev: string, rest: string, args: seq<Arg>, args1: seq<Arg>, id: nat)
    requires !StartsWith(prev, "reactions") && Consume(rest[..Cspn(rest)], args, 0) == Some((args1, id))
    ensures var n := Cspn(rest);
            MajorIds(prev, rest, args) ==
              (if IsMajor(prev, rest[..n]) then [id] else [])
              + (if n == |rest| then [] else MajorIds(rest[..n], rest[n + 1..], args1))
  {
    hide Consume, IsMajor, StartsWith, Cspn;
  }

  lemma NoMoreIds(prev: string, a: seq<Arg>, b: seq<Arg>)
    ensures SameIds(prev, [], a, b)
  {
  }

  /** For one format, two requests have the same key exactly when they have the same method, a multipart
      POST counting as a POST, and the same id in each section `%lu` that follows one which begins with
      `channels` or `guilds`, up to a `reactions` section. */
  lemma KeyByMethodAndIds(h: Http, fmt: string, m1: nat, a: seq<Arg>, m2: nat, b: seq<Arg>)
    requires fmt != [] && Key(h, m1, fmt, a).Some? && Key(h, m2, fmt, b).Some?
    ensures Key(h, m1, fmt, a) == Key(h, m2, fmt, b)
       <==> (if m1 == h.mimePost then h.post else m1) == (if m2 == h.mimePost then h.post else m2)
            && SameIds("", Sections(fmt[1..]), a, b)
  {
    KeyByMajorIds(h, fmt, m1, a, m2, b);
    MajorIdsAre("", fmt[1..], a, b);
  }

  // ------------------------------------------------------------ the endpoint's text

  lemma LaterIdAt(sections: seq<string>, args: seq<Arg>, args1: seq<Arg>, id: nat, k: nat)
    requires sections != [] && Consume(sections[0], args, 0) == Some((args1, id)) && k > 0
    ensures k < |sections| ==> IdAt(sections, args, k) == IdAt(sections[1..], args1, k - 1)
  {
  }

  /** Printing the endpoint shows the id of a `%lu` section at that section. */
  lemma {:induction false} PrintedIdAt(rest: string, args: seq<Arg>, k: nat)
    requires Printed(rest, args).Some?
    ensures |Printed(rest, args).value| == |Sections(rest)|
    ensures k < |Sections(rest)| && Sections(rest)[k] == "%lu" ==>
              IdAt(Sections(rest), args, k).Some?
              && Printed(rest, args).value[k] == Digits(IdAt(Sections(rest), args, k).value)
    decreases |rest|
  {
    var n := Cspn(rest);
    var sections := Sections(rest);
    PrintedAre(rest, args);
    SameArguments(rest[..n], args, 0);
    var (text, args1) := Printf(rest[..n], args).value;
    var id := Consume(rest[..n], args, 0).value.1;
    if n < |rest| {
      hide *;
      SectionsAre(rest);
      var more := rest[n + 1..];
      assert Printed(rest, args) == Some([text] + Printed(more, args1).value);
      if k > 0 {
        PrintedIdAt(more, args1, k - 1);
        LaterIdAt(sections, args, args1, id, k);
      } else {
        PrintedIdAt(more, args1, 0);
        FirstIdAt(sections, args, text, args1);
      }
    } else {
      hide *;
      SectionsAre(rest);
      FirstIdAt(sections, args, text, args1);
    }
  }

  lemma SectionsAre(rest: string)
    ensures Sections(rest) == [rest[..Cspn(rest)]] + MoreSections(rest)
    ensures Sections(rest)[0] == rest[..Cspn(rest)] && Sections(rest)[1..] == MoreSections(rest)
  {
    hide Cspn;
    Prepended(rest[..Cspn(rest)], MoreSections(rest));
  }

  lemma Prepended<V>(v: V, more: seq<V>)
    ensures ([v] + more)[0] == v && ([v] + more)[1..] == more
  {
  }

  lemma FirstIdAt(sections: seq<string>, args: seq<Arg>, text: string, args1: seq<Arg>)
    requires sections != [] && Printf(sections[0], args) == Some((text, args1))
    ensures sections[0] == "%lu" ==> IdAt(sections, args, 0).Some? && text == Digits(IdAt(sections, args, 0).value)
  {
    if sections[0] == "%lu" {
      PrintId(args);
    }
  }

  lemma {:induction false} PrintedHasPieces(prev: string, rest: string, args: seq<Arg>)
    requires Printed(rest, args).Some?
    ensures Pieces(prev, rest, args).Some?
    decreases |rest|
  {
    var n := Cspn(rest);
    PrintedAre(rest, args);
    SameArguments(rest[..n], args, 0);
    if !StartsWith(prev, "reactions") {
      PiecesAre(prev, rest, args);
      hide Pieces, Printed, Printf, Consume, Digits, IsMajor;
      if n < |rest| {
        PrintedHasPieces(rest[..n], rest[n + 1..], Printf(rest[..n], args).value.1);
      }
    }
  }

  /** Where the endpoint can be printed, the part of the key for the id of a channel or guild is the very
      text that stands at the same section of the endpoint. */
  lemma IdsFromEndpoint(rest: string, args: seq<Arg>, k: nat)
    requires Printed(rest, args).Some?
    ensures Pieces("", rest, args).Some? && |Pieces("", rest, args).value| == Cut("", Sections(rest))
    ensures k < Cut("", Sections(rest)) && IdSection("", Sections(rest), k) ==>
              |Printed(rest, args).value| > k && Pieces("", rest, args).value[k] == Printed(rest, args).value[k]
  {
    PrintedHasPieces("", rest, args);
    PrintedIdAt(rest, args, k);
    PartsAre("", rest, args, Pieces("", rest, args).value, k);
    hide Pieces, Printed, Digits;
  }
}

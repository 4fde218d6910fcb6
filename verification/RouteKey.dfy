/** The key that decides which rate-limit bucket a request belongs to. */
module RouteKey {
  import opened Wrappers

  /** WINECORD_ROUTE_LEN */
  const ROUTE_LEN: nat := 256

  /** An argument of the endpoint's format: `%lu` (PRIu64), `%s` or `%d`. */
  datatype Arg = Id(value: nat) | Str(text: string) | Int(number: int)

  /** The numbers of two of the HTTP methods. */
  datatype Http = Http(post: nat, mimePost: nat)

  // ---------------------------------------------------------------------- printing

  function Digits(n: nat): (s: string)
    ensures s != [] && (|s| == 1 <==> n < 10) && forall i :: 0 <= i < |s| ==> '0' <= s[i] <= '9'
  {
    if n < 10 then [('0' as int + n) as char]
    else Digits(n / 10) + [('0' as int + n % 10) as char]
  }

  /** Numbers are printed differently. */
  lemma {:induction false} DigitsInjective(a: nat, b: nat)
    requires Digits(a) == Digits(b)
    ensures a == b
    decreases a + b
  {
    var s, t := Digits(a), Digits(b);
    if a >= 10 && b >= 10 {
      assert s[..|s| - 1] == Digits(a / 10) && t[..|t| - 1] == Digits(b / 10);
      DigitsInjective(a / 10, b / 10);
      assert s[|s| - 1] == t[|t| - 1];
    } else {
      assert s[0] == t[0];
    }
  }

  function PrintInt(n: int): string {
    if n < 0 then "-" + Digits(-n) else Digits(n)
  }

  lemma IntsDiffer(a: int, b: int)
    requires PrintInt(a) == PrintInt(b)
    ensures a == b
  {
    assert (PrintInt(a)[0] == '-' <==> a < 0) && (PrintInt(b)[0] == '-' <==> b < 0);
    if a < 0 {
      assert PrintInt(a)[1..] == Digits(-a) && PrintInt(b)[1..] == Digits(-b);
      DigitsInjective(-a, -b);
    } else {
      DigitsInjective(a, b);
    }
  }

  predicate StartsWith(s: string, p: string) {
    |p| <= |s| && s[..|p|] == p
  }

  lemma Mismatch(s: string, p: string, i: nat)
    requires i < |p| && (i < |s| ==> s[i] != p[i])
    ensures !StartsWith(s, p)
  {
    assert |p| <= |s| ==> s[..|p|][i] == s[i];
  }

  /** vsnprintf, for the conversions above: the text, and the arguments left. */
  function Printf(s: string, args: seq<Arg>): Option<(string, seq<Arg>)> {
    if s == [] then Some(("", args))
    else if s[0] != '%' then
      match Printf(s[1..], args)
      case None => None
      case Some((text, rest)) => Some(([s[0]] + text, rest))
    else if args == [] then None
    else if StartsWith(s[1..], "s") && args[0].Str? then Prefixed(args[0].text, Printf(s[2..], args[1..]))
    else if StartsWith(s[1..], "d") && args[0].Int? then Prefixed(PrintInt(args[0].number), Printf(s[2..], args[1..]))
    else if StartsWith(s[1..], "lu") && args[0].Id? then Prefixed(Digits(args[0].value), Printf(s[3..], args[1..]))
    else None
  }

  function Prefixed(text: string, printed: Option<(string, seq<Arg>)>): Option<(string, seq<Arg>)> {
    match printed
    case None => None
    case Some((more, rest)) => Some((text + more, rest))
  }

  // ----------------------------------------------------------------------- the key

  /** strcspn(s, "/") */
  function Cspn(s: string): (n: nat)
    ensures n <= |s| && (n < |s| ==> s[n] == '/') && forall i :: 0 <= i < n ==> s[i] != '/'
  {
    if s == [] || s[0] == '/' then 0 else 1 + Cspn(s[1..])
  }

  /** The arguments a section consumes, and the last id among them; None is a failed assertion. */
  function Consume(s: string, args: seq<Arg>, id: nat): Option<(seq<Arg>, nat)> {
    if s == [] then Some((args, id))
    else if s[0] != '%' then Consume(s[1..], args, id)
    else if args == [] then None
    else if StartsWith(s[1..], "s") then (if args[0].Str? then Consume(s[1..], args[1..], id) else None)
    else if StartsWith(s[1..], "d") then (if args[0].Int? then Consume(s[1..], args[1..], id) else None)
    else if StartsWith(s[1..], "lu") && args[0].Id? then Consume(s[1..], args[1..], args[0].value)
    else None
  }

  /** The section is where a major parameter stands; strncmp takes any beginning of "%lu" for it. */
  predicate IsMajor(prev: string, section: string) {
    StartsWith("%lu", section) && (StartsWith(prev, "channels") || StartsWith(prev, "guilds"))
  }

  /** The parts of the key the sections give, cut after the section that follows `reactions`. */
  function Pieces(prev: string, rest: string, args: seq<Arg>): Option<seq<string>>
    decreases |rest|
  {
    if StartsWith(prev, "reactions") then Some([])
    else
      var n := Cspn(rest);
      match Consume(rest[..n], args, 0)
      case None => None
      case Some((args1, id)) =>
        var piece := if IsMajor(prev, rest[..n]) then Digits(id) else rest[..n];
        if n == |rest| then Some([piece])
        else
          match Pieces(rest[..n], rest[n + 1..], args1)
          case None => None
          case Some(more) => Some([piece] + more)
  }

  function Joined(pieces: seq<string>, separator: string): string {
    if pieces == [] then "" else separator + pieces[0] + Joined(pieces[1..], separator)
  }

  function Canonical(h: Http, m: nat): nat {
    if m == h.mimePost then h.post else m
  }

  /** ratelimiter_build_key; None is a failed assertion. */
  function Key(h: Http, m: nat, fmt: string, args: seq<Arg>): Option<string>
    requires fmt != []
  {
    match Pieces("", fmt[1..], args)
    case None => None
    case Some(pieces) =>
      var key := ":" + Digits(Canonical(h, m)) + Joined(pieces, ":");
      if |key| < ROUTE_LEN then Some(key) else None
  }

  // ------------------------------------------------------------------- the algorithm

  lemma SectionStarts(rest: string, p: string)
    requires forall i :: 0 <= i < |p| ==> p[i] != '/'
    ensures StartsWith(rest, p) <==> StartsWith(rest[..Cspn(rest)], p)
  {
    var n := Cspn(rest);
    if n < |p| {
      Mismatch(rest, p, n);
      Mismatch(rest[..n], p, n);
    } else {
      assert rest[..n][..|p|] == rest[..|p|];
    }
  }

  /** Skipping the character after `%`, which is none, changes nothing. */
  lemma ConsumeNext(s: string, args: seq<Arg>, id: nat)
    requires s != [] && s[0] != '%'
    ensures Consume(s, args, id) == Consume(s[1..], args, id)
  {
  }

  /** The inner loop: consume the arguments of one section. */
  method ConsumeSection(section: string, args: seq<Arg>) returns (ok: bool, rest: seq<Arg>, id: nat)
    ensures ok <==> Consume(section, args, 0).Some?
    ensures ok ==> Consume(section, args, 0).value == (rest, id)
  {
    ok, rest, id := true, args, 0;
    for i := 0 to |section|
      invariant ok && Consume(section, args, 0) == Consume(section[i..], rest, id)
    {
      if section[i] == '%' {
        assert section[i..][1..] == section[i + 1..];
        if rest == [] {
          return false, rest, id;
        }
        if i + 1 < |section| && section[i + 1] == 's' && rest[0].Str? {
          assert section[i + 1..][..1] == "s";
          rest := rest[1..];
        } else if i + 1 < |section| && section[i + 1] == 'd' && rest[0].Int? {
          assert section[i + 1..][..1] == "d";
          rest := rest[1..];
        } else if StartsWith(section[i + 1..], "lu") && rest[0].Id? {
          id := rest[0].value;
          rest := rest[1..];
        } else {
          return false, rest, id;
        }
      } else {
        ConsumeNext(section[i..], rest, id);
        assert section[i..][1..] == section[i + 1..];
      }
    }
    assert section[|section|..] == [];
  }

  /** What is still to come is what `pieces` gives after `key`. */
  ghost predicate Building(all: Option<seq<string>>, method_: nat, key: string, more: Option<seq<string>>) {
    match all
    case None => more.None?
    case Some(pieces) => more.Some? && ":" + Digits(method_) + Joined(pieces, ":") == key + Joined(more.value, ":")
  }

  lemma Associate(a: string, b: string, c: string)
    ensures a + (b + c) == a + b + c
  {
  }

  /** The part, before those that come after it, if any do. */
  function Led(piece: string, more: Option<seq<string>>): Option<seq<string>> {
    match more
    case None => None
    case Some(pieces) => Some([piece] + pieces)
  }

  lemma LedJoined(piece: string, pieces: seq<string>, separator: string)
    ensures Joined([piece] + pieces, separator) == separator + piece + Joined(pieces, separator)
  {
  }

  lemma PiecesAre(prev: string, rest: string, args: seq<Arg>)
    requires !StartsWith(prev, "reactions")
    ensures var n := Cspn(rest);
            Pieces(prev, rest, args) ==
              match Consume(rest[..n], args, 0)
              case None => None
              case Some((args1, id)) =>
                Led(if IsMajor(prev, rest[..n]) then Digits(id) else rest[..n],
                    if n == |rest| then Some([]) else Pieces(rest[..n], rest[n + 1..], args1))
  {
    var section := rest[..Cspn(rest)];
    if Consume(section, args, 0).Some? {
      var id := Consume(section, args, 0).value.1;
      var piece := if IsMajor(prev, section) then Digits(id) else section;
      assert [piece] + [] == [piece];
    }
    hide Digits, IsMajor, Consume, StartsWith;
  }

  lemma BuildingNext(all: Option<seq<string>>, m: nat, key: string, prev: string, rest: string, args: seq<Arg>,
                     args1: seq<Arg>, id: nat)
    requires Building(all, m, key, Pieces(prev, rest, args)) && !StartsWith(prev, "reactions")
    requires Consume(rest[..Cspn(rest)], args, 0) == Some((args1, id))
    ensures var n := Cspn(rest);
            var piece := if IsMajor(prev, rest[..n]) then Digits(id) else rest[..n];
            Building(all, m, key + ":" + piece,
                     if n == |rest| then Some([]) else Pieces(rest[..n], rest[n + 1..], args1))
  {
    var n := Cspn(rest);
    var piece := if IsMajor(prev, rest[..n]) then Digits(id) else rest[..n];
    var more := if n == |rest| then Some([]) else Pieces(rest[..n], rest[n + 1..], args1);
    hide Pieces, Consume, IsMajor, Digits, StartsWith;
    PiecesAre(prev, rest, args);
    assert Pieces(prev, rest, args) == Led(piece, more);
    if more.Some? {
      LedJoined(piece, more.value, ":");
      hide Joined;
      Associate(key, ":" + piece, Joined(more.value, ":"));
      Associate(key, ":", piece);
    }
  }

  lemma BuildingStart(all: Option<seq<string>>, m: nat)
    ensures Building(all, m, ":" + Digits(m), all)
  {
  }

  lemma BuildingCut(all: Option<seq<string>>, m: nat, key: string, prev: string, rest: string, args: seq<Arg>)
    requires Building(all, m, key, Pieces(prev, rest, args))
    ensures StartsWith(prev, "reactions") ==> Building(all, m, key, Some([]))
    ensures !StartsWith(prev, "reactions") && Consume(rest[..Cspn(rest)], args, 0).None? ==> all.None?
  {
  }

  lemma BuildingEnd(all: Option<seq<string>>, m: nat, key: string)
    requires Building(all, m, key, Some([]))
    ensures all.Some? && ":" + Digits(m) + Joined(all.value, ":") == key
  {
    assert key + "" == key;
  }

  /** The source compares with the whole rest of the format, not with the section alone. */
  lemma RestDecides(prev: string, section: string)
    ensures StartsWith(prev, "reactions") <==> StartsWith(prev[..Cspn(prev)], "reactions")
    ensures IsMajor(prev, section) <==> IsMajor(prev[..Cspn(prev)], section)
  {
    SectionStarts(prev, "reactions");
    SectionStarts(prev, "channels");
    SectionStarts(prev, "guilds");
  }

  /** One section: consume its arguments and push it, or the id that stands for it. */
  method PushSection(prev: string, rest: string, args: seq<Arg>, key: string,
                     ghost all: Option<seq<string>>, ghost m: nat)
    returns (ok: bool, key1: string, args1: seq<Arg>)
    requires !StartsWith(prev, "reactions") && Building(all, m, key, Pieces(First(prev), rest, args))
    ensures !ok ==> all.None?
    ensures ok ==> Building(all, m, key1, AfterFirst(rest, args1))
  {
    hide Pieces, Building, Consume, Digits, StartsWith, IsMajor;
    var section := rest[..Cspn(rest)];
    RestDecides(prev, section);
    BuildingCut(all, m, key, First(prev), rest, args);
    var id;
    ok, args1, id := ConsumeSection(section, args);
    key1 := key;
    if ok {
      BuildingNext(all, m, key, First(prev), rest, args, args1, id);
      if IsMajor(prev, section) {
        key1 := key + ":" + Digits(id);
      } else {
        key1 := key + ":" + section;
      }
    }
  }

  function First(rest: string): string {
    rest[..Cspn(rest)]
  }

  function AfterFirst(rest: string, args: seq<Arg>): Option<seq<string>> {
    if Cspn(rest) == |rest| then Some([]) else Pieces(First(rest), rest[Cspn(rest) + 1..], args)
  }

  /** winecord_ratelimiter_build_key, over an index into the format. */
  method BuildKey(h: Http, m: nat, fmt: string, args: seq<Arg>) returns (key: string, ok: bool)
    requires fmt != []
    ensures ok <==> Key(h, m, fmt, args).Some?
    ensures ok ==> key == Key(h, m, fmt, args).value
  {
    var method_ := if m == h.mimePost then h.post else m;
    key := ":" + Digits(method_);
    var prev := "";
    var curr, currlen := 0, 0;
    var left := args;
    ghost var all := Pieces("", fmt[1..], args);
    BuildingStart(all, method_);
    var more := true;
    hide Pieces, Building, Digits, StartsWith;
    while more
      invariant curr + currlen < |fmt| || !more
      invariant more ==> Building(all, method_, key, Pieces(First(prev), fmt[curr + 1 + currlen..], left))
      invariant !more ==> Building(all, method_, key, Some([]))
      decreases more, |fmt| - curr - currlen
    {
      curr := curr + 1 + currlen;
      var rest := fmt[curr..];
      currlen := Cspn(rest);
      if StartsWith(prev, "reactions") {
        RestDecides(prev, "");
        BuildingCut(all, method_, key, First(prev), rest, left);
        more := false;
      } else {
        var ok1;
        ok1, key, left := PushSection(prev, rest, left, key, all, method_);
        if !ok1 {
          return key, false;
        }
        prev := rest;
        more := currlen < |rest|;
        assert more ==> rest[currlen + 1..] == fmt[curr + 1 + currlen..];
      }
    }
    BuildingEnd(all, method_, key);
    ok := |key| < ROUTE_LEN;
  }

  // ------------------------------------------------------------- what the key depends on

  /** The major parameters of a route. */
  function MajorIds(prev: string, rest: string, args: seq<Arg>): seq<nat>
    decreases |rest|
  {
    if StartsWith(prev, "reactions") then []
    else
      var n := Cspn(rest);
      match Consume(rest[..n], args, 0)
      case None => []
      case Some((args1, id)) =>
        (if IsMajor(prev, rest[..n]) then [id] else [])
        + (if n == |rest| then [] else MajorIds(rest[..n], rest[n + 1..], args1))
  }

  /** How many digits the text begins with. */
  function Leading(s: string): nat {
    if s != [] && '0' <= s[0] <= '9' then 1 + Leading(s[1..]) else 0
  }

  lemma {:induction false} LeadingIs(d: string, x: string)
    requires forall i :: 0 <= i < |d| ==> '0' <= d[i] <= '9'
    requires x == [] || x[0] == ':'
    ensures Leading(d + x) == |d|
    decreases |d|
  {
    if d == [] {
      assert d + x == x;
    } else {
      assert (d + x)[1..] == d[1..] + x;
      LeadingIs(d[1..], x);
    }
  }

  /** A number ends where the next part begins. */
  lemma SplitNumbers(a: nat, b: nat, x: string, y: string)
    requires Digits(a) + x == Digits(b) + y
    requires (x == [] || x[0] == ':') && (y == [] || y[0] == ':')
    ensures a == b && x == y
  {
    LeadingIs(Digits(a), x);
    LeadingIs(Digits(b), y);
    TakeOff(Digits(a), Digits(b), x, y);
    DigitsInjective(a, b);
  }

  lemma JoinedStarts(pieces: seq<string>)
    ensures var s := Joined(pieces, ":"); s == [] || s[0] == ':'
  {
  }

  lemma PiecesUnfold(prev: string, rest: string, args: seq<Arg>, pieces: seq<string>)
    requires Pieces(prev, rest, args) == Some(pieces) && !StartsWith(prev, "reactions")
    ensures var n := Cspn(rest);
            Consume(rest[..n], args, 0).Some?
            && var (args1, id) := Consume(rest[..n], args, 0).value;
               var piece := if IsMajor(prev, rest[..n]) then Digits(id) else rest[..n];
               pieces != [] && pieces[0] == piece
               && (if n == |rest| then pieces[1..] == []
                   else Pieces(rest[..n], rest[n + 1..], args1) == Some(pieces[1..]))
               && Joined(pieces, ":") == ":" + piece + Joined(pieces[1..], ":")
  {
    var n := Cspn(rest);
    hide Pieces, IsMajor, Digits, StartsWith;
    PiecesAre(prev, rest, args);
    var (args1, id) := Consume(rest[..n], args, 0).value;
    var piece := if IsMajor(prev, rest[..n]) then Digits(id) else rest[..n];
    LedJoined(piece, pieces[1..], ":");
    assert pieces == [piece] + pieces[1..];
  }

  /** For one format the parts of the key are the same exactly when the major ids are. */
  lemma {:induction false} PiecesByIds(prev: string, rest: string, a: seq<Arg>, b: seq<Arg>,
                                       p: seq<string>, q: seq<string>)
    requires Pieces(prev, rest, a) == Some(p) && Pieces(prev, rest, b) == Some(q)
    ensures Joined(p, ":") == Joined(q, ":") <==> MajorIds(prev, rest, a) == MajorIds(prev, rest, b)
    decreases |rest|
  {
    if !StartsWith(prev, "reactions") {
      PiecesUnfold(prev, rest, a, p);
      PiecesUnfold(prev, rest, b, q);
      var n := Cspn(rest);
      var (a1, idA) := Consume(rest[..n], a, 0).value;
      var (b1, idB) := Consume(rest[..n], b, 0).value;
      if n < |rest| {
        PiecesByIds(rest[..n], rest[n + 1..], a1, b1, p[1..], q[1..]);
      }
      JoinedStarts(p[1..]);
      JoinedStarts(q[1..]);
      ByIdsStep(IsMajor(prev, rest[..n]), rest[..n], idA, idB, Joined(p[1..], ":"), Joined(q[1..], ":"),
                if n == |rest| then [] else MajorIds(rest[..n], rest[n + 1..], a1),
                if n == |rest| then [] else MajorIds(rest[..n], rest[n + 1..], b1));
    }
  }

  lemma TakeOff<V>(a: seq<V>, b: seq<V>, x: seq<V>, y: seq<V>)
    requires |a| == |b|
    ensures a + x == b + y <==> a == b && x == y
  {
    if a + x == b + y {
      assert (a + x)[..|a|] == a && (b + y)[..|b|] == b;
      assert (a + x)[|a|..] == x && (b + y)[|b|..] == y;
    }
  }

  lemma ByIdsStep(major: bool, section: string, a: nat, b: nat, x: string, y: string, idsA: seq<nat>, idsB: seq<nat>)
    requires (x == [] || x[0] == ':') && (y == [] || y[0] == ':')
    requires x == y <==> idsA == idsB
    ensures ":" + (if major then Digits(a) else section) + x == ":" + (if major then Digits(b) else section) + y
       <==> (if major then [a] else []) + idsA == (if major then [b] else []) + idsB
  {
    var p := if major then Digits(a) else section;
    var q := if major then Digits(b) else section;
    assert ":" + p + x == ":" + (p + x) && ":" + q + y == ":" + (q + y);
    TakeOff(":", ":", p + x, q + y);
    hide Digits;
    if major {
      TakeOff([a], [b], idsA, idsB);
      if p + x == q + y {
        SplitNumbers(a, b, x, y);
      }
    } else {
      TakeOff(section, section, x, y);
      assert [] + idsA == idsA && [] + idsB == idsB;
    }
  }

  /** For one format, two requests have the same key exactly when they have the same method, a
      multipart POST counting as a POST, and the same ids after `channels` and `guilds`. */
  lemma KeyByMajorIds(h: Http, fmt: string, m1: nat, a: seq<Arg>, m2: nat, b: seq<Arg>)
    requires fmt != [] && Key(h, m1, fmt, a).Some? && Key(h, m2, fmt, b).Some?
    ensures Key(h, m1, fmt, a) == Key(h, m2, fmt, b)
       <==> Canonical(h, m1) == Canonical(h, m2) && MajorIds("", fmt[1..], a) == MajorIds("", fmt[1..], b)
  {
    var p, q := Pieces("", fmt[1..], a).value, Pieces("", fmt[1..], b).value;
    PiecesByIds("", fmt[1..], a, b, p, q);
    JoinedStarts(p);
    JoinedStarts(q);
    ByIdsStep(true, "", Canonical(h, m1), Canonical(h, m2), Joined(p, ":"), Joined(q, ":"),
              MajorIds("", fmt[1..], a), MajorIds("", fmt[1..], b));
    assert [Canonical(h, m1)] + MajorIds("", fmt[1..], a) == [Canonical(h, m2)] + MajorIds("", fmt[1..], b)
       <==> Canonical(h, m1) == Canonical(h, m2) && MajorIds("", fmt[1..], a) == MajorIds("", fmt[1..], b) by {
      var x, y := [Canonical(h, m1)] + MajorIds("", fmt[1..], a), [Canonical(h, m2)] + MajorIds("", fmt[1..], b);
      assert x[1..] == MajorIds("", fmt[1..], a) && y[1..] == MajorIds("", fmt[1..], b);
    }
  }

  /** No request is taken for the buckets kept under `null` and `miss`, and each key fits its buffer. */
  lemma KeyIsNoSingleton(h: Http, m: nat, fmt: string, args: seq<Arg>)
    requires fmt != [] && Key(h, m, fmt, args).Some?
    ensures var key := Key(h, m, fmt, args).value;
            key != "null" && key != "miss" && 0 < |key| < 256
  {
    assert Key(h, m, fmt, args).value[0] == ':';
  }

  /** Routes below a `reactions` section share the key of that section. */
  lemma {:induction false} ReactionsCut(prev: string, rest: string, tail: string, args: seq<Arg>)
    requires StartsWith(LastSection(rest), "reactions")
    ensures Pieces(prev, rest + "/" + tail, args) == Pieces(prev, rest, args)
    decreases |rest|
  {
    var n := Cspn(rest);
    var longer := rest + "/" + tail;
    CspnPrefix(rest, tail);
    assert longer[..n] == rest[..n];
    if !StartsWith(prev, "reactions") {
      PiecesAre(prev, rest, args);
      PiecesAre(prev, longer, args);
      var section := rest[..n];
      if n < |rest| {
        assert longer[n + 1..] == rest[n + 1..] + "/" + tail;
        if Consume(section, args, 0).Some? {
          hide Pieces, Consume, IsMajor, Digits, Cspn;
          ReactionsCut(section, rest[n + 1..], tail, Consume(section, args, 0).value.0);
        }
      } else {
        assert section == rest && Pieces(section, longer[n + 1..], []) == Some([]);
      }
    }
  }

  function LastSection(rest: string): string
    decreases |rest|
  {
    var n := Cspn(rest);
    if n == |rest| then rest else LastSection(rest[n + 1..])
  }

  lemma {:induction false} CspnPrefix(rest: string, tail: string)
    ensures Cspn(rest + "/" + tail) == Cspn(rest)
  {
    if rest != [] && rest[0] != '/' {
      assert (rest + "/" + tail)[1..] == rest[1..] + "/" + tail;
      CspnPrefix(rest[1..], tail);
    }
  }

  // -------------------------------------------------------------- the endpoint's text

  /** The endpoint's sections, printed one by one with the arguments the previous ones left. */
  function Printed(rest: string, args: seq<Arg>): Option<seq<string>>
    decreases |rest|
  {
    var n := Cspn(rest);
    match Printf(rest[..n], args)
    case None => None
    case Some((text, args1)) =>
      if n == |rest| then Some([text])
      else
        match Printed(rest[n + 1..], args1)
        case None => None
        case Some(more) => Some([text] + more)
  }

  lemma PrefixedTwice(text: string, s: string, t: string, args: seq<Arg>)
    ensures Printf(s, args).Some? ==>
              var (more, rest) := Printf(s, args).value;
              Prefixed(text, Prefixed(more, Printf(t, rest))) == Prefixed(text + more, Printf(t, rest))
  {
    if Printf(s, args).Some? {
      var (more, rest) := Printf(s, args).value;
      if Printf(t, rest).Some? {
        Associate(text, more, Printf(t, rest).value.0);
      }
    }
  }

  /** What is printed for `s + t` is what is printed for `s`, and then for `t`. */
  ghost predicate Splits(s: string, t: string, args: seq<Arg>) {
    Printf(s + t, args) == match Printf(s, args)
                           case None => None
                           case Some((text, rest)) => Prefixed(text, Printf(t, rest))
  }

  /** The first `n` characters of both are printed as `text` and leave `args1`. */
  lemma SplitsAfter(s: string, t: string, args: seq<Arg>, n: nat, text: string, args1: seq<Arg>)
    requires n <= |s| && Splits(s[n..], t, args1)
    requires Printf(s, args) == Prefixed(text, Printf(s[n..], args1))
    requires Printf(s + t, args) == Prefixed(text, Printf((s + t)[n..], args1))
    ensures Splits(s, t, args)
  {
    hide Printf;
    assert (s + t)[n..] == s[n..] + t;
    PrefixedTwice(text, s[n..], t, args1);
  }

  /** One step of Printf: how many characters it takes, what it prints for them, and what it leaves. */
  function Conversion(s: string, args: seq<Arg>): Option<(nat, string, seq<Arg>)>
    requires s != []
  {
    if s[0] != '%' then Some((1, [s[0]], args))
    else if args == [] then None
    else if StartsWith(s[1..], "s") && args[0].Str? then Some((2, args[0].text, args[1..]))
    else if StartsWith(s[1..], "d") && args[0].Int? then Some((2, PrintInt(args[0].number), args[1..]))
    else if StartsWith(s[1..], "lu") && args[0].Id? then Some((3, Digits(args[0].value), args[1..]))
    else None
  }

  lemma PrintfUnfolds(s: string, args: seq<Arg>)
    requires s != []
    ensures match Conversion(s, args)
            case None => Printf(s, args) == None
            case Some((n, text, args1)) => 0 < n <= |s| && Printf(s, args) == Prefixed(text, Printf(s[n..], args1))
  {
  }

  lemma SameConversion(s: string, t: string, args: seq<Arg>)
    requires s != [] && (t == [] || t[0] == '/')
    ensures Conversion(s + t, args) == Conversion(s, args)
  {
    assert (s + t)[1..] == s[1..] + t;
    StartsSplit(s[1..], t, "s");
    StartsSplit(s[1..], t, "d");
    StartsSplit(s[1..], t, "lu");
  }

  lemma {:induction false} PrintfSplits(s: string, t: string, args: seq<Arg>)
    requires t == [] || t[0] == '/'
    ensures Splits(s, t, args)
    decreases |s|
  {
    if s == [] {
      assert s + t == t;
      assert Printf(t, args).Some? ==> "" + Printf(t, args).value.0 == Printf(t, args).value.0;
    } else {
      PrintfUnfolds(s, args);
      PrintfUnfolds(s + t, args);
      SameConversion(s, t, args);
      hide Printf, Conversion;
      match Conversion(s, args)
      case None =>
      case Some((n, text, args1)) =>
        PrintfSplits(s[n..], t, args1);
        SplitsAfter(s, t, args, n, text, args1);
    }
  }

  /** No conversion reaches over a slash. */
  lemma StartsSplit(s: string, t: string, p: string)
    requires t == [] || t[0] == '/'
    requires forall i :: 0 <= i < |p| ==> p[i] != '/'
    ensures StartsWith(s + t, p) <==> StartsWith(s, p)
  {
    if |p| <= |s| {
      assert (s + t)[..|p|] == s[..|p|];
    } else {
      Mismatch(s + t, p, |s|);
    }
  }

  lemma SlashFirst(s: string, args: seq<Arg>)
    ensures Printf("/" + s, args) == Prefixed("/", Printf(s, args))
  {
    assert ("/" + s)[1..] == s;
  }

  lemma PrintedAre(rest: string, args: seq<Arg>)
    ensures var n := Cspn(rest);
            Printed(rest, args) ==
              match Printf(rest[..n], args)
              case None => None
              case Some((text, args1)) => Led(text, if n == |rest| then Some([]) else Printed(rest[n + 1..], args1))
  {
    hide Printf;
    var printed := Printf(rest[..Cspn(rest)], args);
    if printed.Some? {
      assert [printed.value.0] + [] == [printed.value.0];
    }
  }

  /** The endpoint is its sections, each after a slash. */
  lemma {:induction false} EndpointIsPrinted(rest: string, args: seq<Arg>)
    ensures Printf("/" + rest, args).Some? <==> Printed(rest, args).Some?
    ensures Printed(rest, args).Some? ==> Printf("/" + rest, args).value.0 == Joined(Printed(rest, args).value, "/")
    decreases |rest|
  {
    var n := Cspn(rest);
    var t := rest[n..];
    assert rest == rest[..n] + t;
    PrintfSplits(rest[..n], t, args);
    SlashFirst(rest, args);
    PrintedAre(rest, args);
    hide Printed, Cspn;
    if Printf(rest[..n], args).Some? {
      var (text, args1) := Printf(rest[..n], args).value;
      if n < |rest| {
        assert t == "/" + rest[n + 1..];
        hide Printf;
        EndpointIsPrinted(rest[n + 1..], args1);
        if Printed(rest[n + 1..], args1).Some? {
          LedJoined(text, Printed(rest[n + 1..], args1).value, "/");
          Associate("/", text, Joined(Printed(rest[n + 1..], args1).value, "/"));
        }
      } else {
        assert Printf(t, args1) == Some(("", args1));
        hide Printf;
        LedJoined(text, [], "/");
        assert "/" + (text + "") == "/" + text + "";
      }
    }
  }

  /** Printing a section uses up the arguments that building the key consumes for it. */
  lemma {:induction false} SameArguments(s: string, args: seq<Arg>, id: nat)
    requires Printf(s, args).Some?
    ensures Consume(s, args, id).Some? && Consume(s, args, id).value.0 == Printf(s, args).value.1
    decreases |s|
  {
    if s != [] {
      if s[0] != '%' {
        SameArguments(s[1..], args, id);
      } else if StartsWith(s[1..], "s") {
        assert s[1..][0] == "s"[0];
        ConsumeNext(s[1..], args[1..], id);
        assert s[1..][1..] == s[2..];
        SameArguments(s[2..], args[1..], id);
      } else if StartsWith(s[1..], "d") {
        assert s[1..][0] == "d"[0];
        ConsumeNext(s[1..], args[1..], id);
        assert s[1..][1..] == s[2..];
        SameArguments(s[2..], args[1..], id);
      } else {
        assert s[1] == s[1..][0] == "lu"[0];
        assert s[2] == s[1..][1] == "lu"[1];
        ConsumeNext(s[1..], args[1..], args[0].value);
        assert s[1..][1..] == s[2..];
        ConsumeNext(s[2..], args[1..], args[0].value);
        assert s[2..][1..] == s[3..];
        SameArguments(s[3..], args[1..], args[0].value);
      }
    }
  }
}

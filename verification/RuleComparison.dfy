/** Comparing the installed xtables rules with the compiled ones: token normalisation, an unambiguous
    encoding, and an order that forgets only how chains were interleaved. */
module RuleComparison {
  import opened Basics
  import opened Model
  import opened Numerals

  datatype ParseError = EmptyRule | BadMark

  // ---------------------------------------------------------------- mark arguments

  function Unsigned(s: string, b: nat): Option<nat>
    requires Base(b)
  {
    var digits := if s != "" && s[0] == '+' then s[1..] else s;
    match Read(digits, b)
    case Some(v) => if v < U32 then Some(v) else None
    case None => None
  }

  function ParseNumber(s: string): Option<nat> {
    if "0x" <= s || "0X" <= s then Unsigned(s[2..], 16) else Unsigned(s, 10)
  }

  function Slash(s: string): (i: nat)
    ensures i <= |s| && '/' !in s[..i] && (i < |s| ==> s[i] == '/')
  {
    if s == "" || s[0] == '/' then 0 else 1 + Slash(s[1..])
  }

  datatype MarkArgument = MarkArgument(value: nat, mask: Option<nat>)

  function ParseMark(s: string): Option<MarkArgument> {
    var i := Slash(s);
    match ParseNumber(s[..i])
    case None => None
    case Some(value) =>
      if i == |s| then Some(MarkArgument(value, None))
      else
        match ParseNumber(s[i + 1..])
        case None => None
        case Some(mask) => Some(MarkArgument(value, Some(mask)))
  }

  function Hex(n: nat): string { "0x" + Numeral(n, 16) }

  function PrintMark(m: MarkArgument): string {
    match m.mask case None => Hex(m.value) case Some(mask) => Hex(m.value) + "/" + Hex(mask)
  }

  lemma HexIsPlain(n: nat)
    ensures '/' !in Hex(n)
  {
    NumeralIsPlain(n, 16, '/');
  }

  lemma HexIsInjective(m: nat, n: nat)
    requires Hex(m) == Hex(n)
    ensures m == n
  {
    assert Hex(m)[2..] == Numeral(m, 16) && Hex(n)[2..] == Numeral(n, 16);
    NumeralIsInjective(m, n, 16);
  }

  function Find(s: string, c: char): nat { if s == "" || s[0] == c then 0 else 1 + Find(s[1..], c) }

  lemma {:induction false} FirstAt(a: string, x: string, c: char)
    requires c !in a
    ensures Find(a + [c] + x, c) == |a|
  {
    if a != "" {
      FirstAt(a[1..], x, c);
      assert (a + [c] + x)[1..] == a[1..] + [c] + x;
    }
  }

  lemma SplitAt(a: string, b: string, x: string, y: string, c: char)
    requires c !in a && c !in b && a + [c] + x == b + [c] + y
    ensures a == b && x == y
  {
    var s, t := a + [c] + x, b + [c] + y;
    FirstAt(a, x, c);
    FirstAt(b, y, c);
    assert s[..|a|] == a && t[..|b|] == b && s[|a| + 1..] == x && t[|b| + 1..] == y;
  }

  /** Two spellings of a mark normalise to the same text exactly when they mean the same value and mask. */
  lemma MarksCompareByValue(a: MarkArgument, b: MarkArgument)
    ensures PrintMark(a) == PrintMark(b) <==> a == b
  {
    HexIsPlain(a.value);
    HexIsPlain(b.value);
    MaskShows(a);
    MaskShows(b);
    if PrintMark(a) == PrintMark(b) {
      if a.mask.Some? {
        SplitAt(Hex(a.value), Hex(b.value), Hex(a.mask.value), Hex(b.mask.value), '/');
        HexIsInjective(a.mask.value, b.mask.value);
      }
      HexIsInjective(a.value, b.value);
    }
  }

  lemma MaskShows(m: MarkArgument)
    ensures m.mask.Some? <==> '/' in PrintMark(m)
  {
    HexIsPlain(m.value);
    if m.mask.Some? { assert PrintMark(m)[|Hex(m.value)|] == '/'; }
  }

  lemma HexReads(n: nat)
    requires n < U32
    ensures ParseNumber(Hex(n)) == Some(n)
  {
    NumeralReads(n, 16);
    NumeralIsPlain(n, 16, '+');
    assert Hex(n)[2..] == Numeral(n, 16) && Numeral(n, 16)[0] in Numeral(n, 16);
  }

  /** The normal form is itself a spelling of the same mark. */
  lemma MarkReadsBack(m: MarkArgument)
    requires m.value < U32 && (m.mask.Some? ==> m.mask.value < U32)
    ensures ParseMark(PrintMark(m)) == Some(m)
  {
    HexReads(m.value);
    HexIsPlain(m.value);
    var s := PrintMark(m);
    if m.mask.Some? {
      HexReads(m.mask.value);
      FirstAt(Hex(m.value), Hex(m.mask.value), '/');
      SlashFinds(s);
      assert s[..|Hex(m.value)|] == Hex(m.value) && s[|Hex(m.value)| + 1..] == Hex(m.mask.value);
    } else {
      assert Slash(s) == |s| && s[..|s|] == s;
    }
  }

  lemma {:induction false} SlashFinds(s: string)
    ensures Slash(s) == Find(s, '/')
  {
    if s != "" && s[0] != '/' { SlashFinds(s[1..]); }
  }

  // ---------------------------------------------------------------- normalisation

  const SYN_FLAGS := ["--tcp-flags", "FIN,SYN,RST,ACK", "SYN"]

  function ExpandSyn(t: seq<string>): seq<string> {
    if t == [] then [] else (if t[0] == "--syn" then SYN_FLAGS else [t[0]]) + ExpandSyn(t[1..])
  }

  function ProtocolOf(t: seq<string>): Option<string> {
    if |t| < 2 then None else if t[0] == "-p" then Some(t[1]) else ProtocolOf(t[1..])
  }

  /** Drops each `-m <protocol>`, going on behind it. */
  function DropModule(t: seq<string>, protocol: string): seq<string> {
    if |t| < 2 then t
    else if t[0] == "-m" && t[1] == protocol then DropModule(t[2..], protocol)
    else [t[0]] + DropModule(t[1..], protocol)
  }

  predicate MarkOption(s: string) { s == "--mark" || s == "--set-xmark" }

  function NormalMarks(t: seq<string>): Result<seq<string>, ParseError>
    decreases |t|
  {
    if |t| < 2 then Ok(t)
    else if MarkOption(t[0]) then
      match ParseMark(t[1])
      case None => Err(BadMark)
      case Some(m) =>
        (match NormalMarks([PrintMark(m)] + t[2..]) case Err(e) => Err(e) case Ok(rest) => Ok([t[0]] + rest))
    else match NormalMarks(t[1..]) case Err(e) => Err(e) case Ok(rest) => Ok([t[0]] + rest)
  }

  function Normal(t: seq<string>): Result<seq<string>, ParseError> {
    if t == [] then Err(EmptyRule)
    else
      var expanded := ExpandSyn(t);
      var protocol := ProtocolOf(expanded);
      NormalMarks(if protocol == Some("tcp") || protocol == Some("udp") then DropModule(expanded, protocol.value) else expanded)
  }

  /** Each token with its length in front. */
  function Encode(t: seq<string>): string {
    if t == [] then "" else Decimal(|t[0]|) + ":" + t[0] + Encode(t[1..])
  }

  lemma {:induction false} EncodingIsInjective(a: seq<string>, b: seq<string>)
    requires Encode(a) == Encode(b)
    ensures a == b
  {
    if a == [] || b == [] {
      EncodedIsNotEmpty(a);
      EncodedIsNotEmpty(b);
    } else {
      var x, y := a[0] + Encode(a[1..]), b[0] + Encode(b[1..]);
      NumeralIsPlain(|a[0]|, 10, ':');
      NumeralIsPlain(|b[0]|, 10, ':');
      assert Decimal(|a[0]|) + [':'] + x == Encode(a) && Decimal(|b[0]|) + [':'] + y == Encode(b);
      SplitAt(Decimal(|a[0]|), Decimal(|b[0]|), x, y, ':');
      NumeralIsInjective(|a[0]|, |b[0]|, 10);
      assert x[..|a[0]|] == a[0] && y[..|b[0]|] == b[0];
      assert x[|a[0]|..] == Encode(a[1..]) && y[|b[0]|..] == Encode(b[1..]);
      EncodingIsInjective(a[1..], b[1..]);
      assert a == [a[0]] + a[1..] && b == [b[0]] + b[1..];
    }
  }

  lemma EncodedIsNotEmpty(t: seq<string>)
    ensures Encode(t) == "" <==> t == []
  {
  }

  // ---------------------------------------------------------------- the loops of the normaliser

  method ExpandSynFlags(rule: seq<string>) returns (tokens: seq<string>)
    ensures tokens == ExpandSyn(rule)
  {
    tokens := rule;
    var index := 0;
    ghost var rest := rule;
    while index < |tokens|
      invariant index <= |tokens| && tokens[index..] == rest
      invariant tokens[..index] + ExpandSyn(rest) == ExpandSyn(rule)
      decreases |rest|
    {
      ghost var before, done := tokens, tokens[..index];
      assert before[index..][0] == before[index] && rest[1..] == before[index + 1..];
      if tokens[index] == "--syn" {
        tokens := tokens[..index] + SYN_FLAGS + tokens[index + 1..];
        assert tokens[..index + 3] == done + SYN_FLAGS && tokens[index + 3..] == rest[1..];
        Regroup(done, SYN_FLAGS, ExpandSyn(rest[1..]));
        index := index + 3;
      } else {
        assert tokens[..index + 1] == done + [tokens[index]];
        Regroup(done, [tokens[index]], ExpandSyn(rest[1..]));
        index := index + 1;
      }
      rest := rest[1..];
    }
    assert tokens[..index] == tokens;
  }

  method DropRedundantModule(rule: seq<string>, protocol: string) returns (tokens: seq<string>)
    ensures tokens == DropModule(rule, protocol)
  {
    tokens := rule;
    var index := 0;
    assert tokens[0..] == rule;
    while index + 1 < |tokens|
      invariant index <= |tokens|
      invariant tokens[..index] + DropModule(tokens[index..], protocol) == DropModule(rule, protocol)
      decreases |tokens| - index
    {
      ghost var done, rest := tokens[..index], tokens[index..];
      assert rest[0] == tokens[index] && rest[1] == tokens[index + 1];
      if tokens[index] == "-m" && tokens[index + 1] == protocol {
        assert rest[2..] == tokens[index + 2..];
        tokens := tokens[..index] + tokens[index + 2..];
        assert tokens[..index] == done && tokens[index..] == rest[2..];
      } else {
        assert rest[1..] == tokens[index + 1..] && tokens[..index + 1] == done + [tokens[index]];
        Regroup(done, [rest[0]], DropModule(rest[1..], protocol));
        index := index + 1;
      }
    }
    assert tokens[..index] + tokens[index..] == tokens;
  }

  function Behind(done: seq<string>, r: Result<seq<string>, ParseError>): Result<seq<string>, ParseError> {
    match r case Err(e) => Err(e) case Ok(rest) => Ok(done + rest)
  }

  lemma BehindNothing(r: Result<seq<string>, ParseError>)
    ensures Behind([], r) == r
  {
    if r.Ok? { assert [] + r.value == r.value; }
  }

  lemma BehindMoves(done: seq<string>, t: seq<string>)
    requires |t| >= 2
    ensures !MarkOption(t[0]) ==> Behind(done, NormalMarks(t)) == Behind(done + [t[0]], NormalMarks(t[1..]))
    ensures MarkOption(t[0]) && ParseMark(t[1]).None? ==> NormalMarks(t) == Err(BadMark)
    ensures MarkOption(t[0]) && ParseMark(t[1]).Some? ==>
              Behind(done, NormalMarks(t))
              == Behind(done + [t[0]], NormalMarks([PrintMark(ParseMark(t[1]).value)] + t[2..]))
  {
    var next := if MarkOption(t[0]) && ParseMark(t[1]).Some? then [PrintMark(ParseMark(t[1]).value)] + t[2..] else t[1..];
    match NormalMarks(next)
    case Err(_) =>
    case Ok(rest) => Regroup(done, [t[0]], rest);
  }

  method NormalizeMarks(rule: seq<string>) returns (r: Result<seq<string>, ParseError>)
    ensures r == NormalMarks(rule)
  {
    var tokens := rule;
    var index := 0;
    assert tokens[0..] == rule;
    BehindNothing(NormalMarks(rule));
    while index + 1 < |tokens|
      invariant index <= |tokens|
      invariant Behind(tokens[..index], NormalMarks(tokens[index..])) == NormalMarks(rule)
      decreases |tokens| - index
    {
      ghost var done, rest := tokens[..index], tokens[index..];
      BehindMoves(done, rest);
      if MarkOption(tokens[index]) {
        match ParseMark(tokens[index + 1]) {
          case None => return Err(BadMark);
          case Some(m) => tokens := tokens[index + 1 := PrintMark(m)];
        }
        assert tokens[index + 1..] == [tokens[index + 1]] + rest[2..];
      } else {
        assert tokens[index + 1..] == rest[1..];
      }
      assert tokens[..index + 1] == done + [rest[0]];
      index := index + 1;
    }
    assert tokens[..index] + tokens[index..] == tokens;
    r := Ok(tokens);
  }

  method EncodeTokens(tokens: seq<string>) returns (text: string)
    ensures text == Encode(tokens)
  {
    text := "";
    assert tokens[0..] == tokens;
    for i := 0 to |tokens|
      invariant text + Encode(tokens[i..]) == Encode(tokens)
    {
      ghost var rest := tokens[i..];
      var piece := Decimal(|tokens[i]|) + ":" + tokens[i];
      assert rest[0] == tokens[i] && rest[1..] == tokens[i + 1..];
      Regroup(text, piece, Encode(rest[1..]));
      text := text + piece;
    }
    assert text + "" == text;
  }

  /** The normal form of a rule's tokens, as one string. */
  method NormalizeRule(rule: seq<string>) returns (r: Result<string, ParseError>)
    ensures r == match Normal(rule) case Ok(t) => Ok(Encode(t)) case Err(e) => Err(e)
  {
    if rule == [] { return Err(EmptyRule); }
    var tokens := ExpandSynFlags(rule);
    var protocol := ProtocolOf(tokens);
    if protocol == Some("tcp") || protocol == Some("udp") { tokens := DropRedundantModule(tokens, protocol.value); }
    var marked := NormalizeMarks(tokens);
    if marked.Err? { return Err(marked.error); }
    var text := EncodeTokens(marked.value);
    r := Ok(text);
  }

  // ---------------------------------------------------------------- chains and their order

  datatype Chain = AppPacket | AppTcp | Forward | Input | MarkSanitize | Observe | Output

  function Name(c: Chain): string {
    match c
    case AppPacket => "OPENSHIELD_APP_PKT"
    case AppTcp => "OPENSHIELD_APP_TCP"
    case Forward => "OPENSHIELD_FWD"
    case Input => "OPENSHIELD_IN"
    case MarkSanitize => "OPENSHIELD_MARK"
    case Observe => "OPENSHIELD_OBSERVE"
    case Output => "OPENSHIELD_OUT"
  }

  /** The place of a chain among the owned ones, ordered by name. */
  function Rank(c: Chain): nat {
    match c
    case AppPacket => 0 case AppTcp => 1 case Forward => 2 case Input => 3
    case MarkSanitize => 4 case Observe => 5 case Output => 6
  }

  predicate MangleChain(c: Chain) { c.MarkSanitize? || c.Observe? }

  /** A normalised rule of an owned chain. */
  datatype Line = Line(chain: Chain, tokens: seq<string>)

  predicate LineWf(l: Line) { |l.tokens| >= 2 && l.tokens[0] == "-A" && l.tokens[1] == Name(l.chain) }

  predicate AllWf(lines: seq<Line>) { forall l :: l in lines ==> LineWf(l) }

  lemma NamesDiffer(a: Chain, b: Chain)
    requires Name(a) == Name(b)
    ensures a == b
  {
    assert |Name(a)| == |Name(b)|;
    assert Name(a)[11..] == Name(b)[11..];
    assert Name(a)[11] == Name(b)[11] && Name(a)[12] == Name(b)[12];
    assert |Name(a)| == 18 ==> Name(a)[15] == Name(b)[15];
  }

  /** Normalisation never touches the command and the chain it names. */
  lemma NormalKeepsChain(t: seq<string>, c: Chain)
    requires |t| >= 2 && t[0] == "-A" && t[1] == Name(c) && Normal(t).Ok?
    ensures LineWf(Line(c, Normal(t).value))
  {
    var expanded := ExpandSyn(t);
    PlainName(c);
    assert ExpandSyn(t[1..]) == [t[1]] + ExpandSyn(t[2..]) by { assert t[1..][1..] == t[2..]; }
    assert expanded == [t[0], t[1]] + ExpandSyn(t[2..]);
    var protocol := ProtocolOf(expanded);
    if protocol == Some("tcp") || protocol == Some("udp") {
      DropKeepsHead(expanded, protocol.value);
      MarksKeepHead(DropModule(expanded, protocol.value));
    } else {
      MarksKeepHead(expanded);
    }
  }

  predicate Plain(s: string) { s != "--syn" && s != "-m" && !MarkOption(s) }

  lemma PlainName(c: Chain)
    ensures Plain(Name(c)) && Plain("-A")
  {
    assert Name(c)[0] == 'O';
  }

  lemma DropKeepsHead(t: seq<string>, protocol: string)
    requires |t| >= 2 && Plain(t[0]) && Plain(t[1])
    ensures var r := DropModule(t, protocol); |r| >= 2 && r[0] == t[0] && r[1] == t[1]
  {
    assert t[1..][0] == t[1];
  }

  lemma MarksKeepHead(t: seq<string>)
    requires |t| >= 2 && Plain(t[0]) && Plain(t[1]) && NormalMarks(t).Ok?
    ensures var r := NormalMarks(t).value; |r| >= 2 && r[0] == t[0] && r[1] == t[1]
  {
    assert t[1..][0] == t[1];
  }

  // ---------------------------------------------------------------- the stable sort

  function InChain(lines: seq<Line>, c: Chain): seq<Line> {
    if lines == [] then [] else (if lines[0].chain == c then [lines[0]] else []) + InChain(lines[1..], c)
  }

  predicate Sorted(lines: seq<Line>) {
    forall i, j :: 0 <= i < j < |lines| ==> Rank(lines[i].chain) <= Rank(lines[j].chain)
  }

  /** Puts a line behind all lines of its own and of earlier chains. */
  function Place(sorted: seq<Line>, l: Line): seq<Line> {
    if sorted == [] || Rank(sorted[|sorted| - 1].chain) <= Rank(l.chain) then sorted + [l]
    else Place(sorted[..|sorted| - 1], l) + [sorted[|sorted| - 1]]
  }

  function Sort(lines: seq<Line>): seq<Line> {
    if lines == [] then [] else Place(Sort(lines[..|lines| - 1]), lines[|lines| - 1])
  }

  lemma {:induction false} InChainSplit(a: seq<Line>, b: seq<Line>, c: Chain)
    ensures InChain(a + b, c) == InChain(a, c) + InChain(b, c)
  {
    if a == [] {
      assert a + b == b;
    } else {
      InChainSplit(a[1..], b, c);
      assert (a + b)[1..] == a[1..] + b;
      Regroup(if a[0].chain == c then [a[0]] else [], InChain(a[1..], c), InChain(b, c));
    }
  }

  lemma InChainOne(l: Line, c: Chain)
    ensures InChain([l], c) == if l.chain == c then [l] else []
  {
    assert [l][1..] == [];
  }

  lemma {:induction false} PlaceKeepsChains(sorted: seq<Line>, l: Line, c: Chain)
    ensures InChain(Place(sorted, l), c) == InChain(sorted, c) + InChain([l], c)
  {
    if sorted == [] || Rank(sorted[|sorted| - 1].chain) <= Rank(l.chain) {
      InChainSplit(sorted, [l], c);
    } else {
      var front, last := sorted[..|sorted| - 1], sorted[|sorted| - 1];
      PlaceKeepsChains(front, l, c);
      InChainSplit(Place(front, l), [last], c);
      InChainSplit(front, [last], c);
      assert sorted == front + [last];
      InChainOne(l, c);
      InChainOne(last, c);
    }
  }

  lemma {:induction false} PlaceSorts(sorted: seq<Line>, l: Line)
    requires Sorted(sorted)
    ensures Sorted(Place(sorted, l)) && forall x :: x in Place(sorted, l) <==> x in sorted || x == l
  {
    if sorted != [] && Rank(sorted[|sorted| - 1].chain) > Rank(l.chain) {
      var front, last := sorted[..|sorted| - 1], sorted[|sorted| - 1];
      PlaceSorts(front, l);
      assert sorted == front + [last];
      var placed := Place(front, l);
      forall i | 0 <= i < |placed| ensures Rank(placed[i].chain) <= Rank(last.chain) {
        assert placed[i] in placed;
        if placed[i] != l { FrontIsBelow(front, last, placed[i]); }
      }
    }
  }

  lemma FrontIsBelow(front: seq<Line>, last: Line, l: Line)
    requires Sorted(front + [last]) && l in front
    ensures Rank(l.chain) <= Rank(last.chain)
  {
    var i :| 0 <= i < |front| && front[i] == l;
    assert (front + [last])[i] == l && (front + [last])[|front|] == last;
  }

  lemma {:induction false} SortSorts(lines: seq<Line>)
    ensures Sorted(Sort(lines)) && forall x :: x in Sort(lines) <==> x in lines
  {
    if lines != [] {
      SortSorts(lines[..|lines| - 1]);
      PlaceSorts(Sort(lines[..|lines| - 1]), lines[|lines| - 1]);
      assert lines == lines[..|lines| - 1] + [lines[|lines| - 1]];
    }
  }

  lemma {:induction false} SortKeepsChains(lines: seq<Line>, c: Chain)
    ensures InChain(Sort(lines), c) == InChain(lines, c)
  {
    if lines != [] {
      var front, last := lines[..|lines| - 1], lines[|lines| - 1];
      SortKeepsChains(front, c);
      PlaceKeepsChains(Sort(front), last, c);
      InChainSplit(front, [last], c);
      assert lines == front + [last];
    }
  }

  ghost predicate SameChains(a: seq<Line>, b: seq<Line>) { forall c :: InChain(a, c) == InChain(b, c) }

  lemma {:induction false} InChainMember(lines: seq<Line>, c: Chain)
    requires InChain(lines, c) != []
    ensures exists l :: l in lines && l.chain == c
  {
    if lines[0].chain != c { InChainMember(lines[1..], c); }
  }

  lemma HeadIsLeast(s: seq<Line>, t: seq<Line>)
    requires s != [] && t != [] && Sorted(t) && SameChains(s, t)
    ensures Rank(t[0].chain) <= Rank(s[0].chain)
  {
    assert InChain(s, s[0].chain) != [];
    InChainMember(t, s[0].chain);
  }

  lemma TailOf(s: seq<Line>, c: Chain)
    requires s != []
    ensures InChain(s, c) == if s[0].chain == c then [s[0]] + InChain(s[1..], c) else InChain(s[1..], c)
    ensures s[0].chain == c ==> InChain(s[1..], c) == InChain(s, c)[1..]
  {
  }

  /** A sorted list is determined by its chains. */
  lemma {:induction false} SortedIsUnique(s: seq<Line>, t: seq<Line>)
    requires Sorted(s) && Sorted(t) && SameChains(s, t)
    ensures s == t
  {
    if s == [] || t == [] {
      assert t != [] ==> InChain(t, t[0].chain) != [];
      assert s != [] ==> InChain(s, s[0].chain) != [];
      assert forall c :: InChain([], c) == [];
    } else {
      HeadIsLeast(s, t);
      HeadIsLeast(t, s);
      assert s[0].chain == t[0].chain;
      assert InChain(s, s[0].chain)[0] == s[0] && InChain(t, s[0].chain)[0] == t[0];
      forall c ensures InChain(s[1..], c) == InChain(t[1..], c) {
        TailOf(s, c);
        TailOf(t, c);
      }
      SortedIsUnique(s[1..], t[1..]);
      assert s == [s[0]] + s[1..] && t == [t[0]] + t[1..];
    }
  }

  // ---------------------------------------------------------------- the comparison

  function Texts(lines: seq<Line>): seq<string> {
    seq(|lines|, i requires 0 <= i < |lines| => Encode(lines[i].tokens))
  }

  /** What is compared for one table. */
  function Ordered(lines: seq<Line>): seq<string> { Texts(Sort(lines)) }

  lemma TextsSplit(a: seq<Line>, b: seq<Line>)
    ensures Texts(a + b) == Texts(a) + Texts(b)
  {
  }

  /** A text gives back its line, chain included. */
  lemma TextsAreInjective(a: seq<Line>, b: seq<Line>)
    requires AllWf(a) && AllWf(b) && Texts(a) == Texts(b)
    ensures a == b
  {
    assert |Texts(a)| == |a| && |Texts(b)| == |b|;
    forall i | 0 <= i < |a| ensures a[i] == b[i] {
      assert Texts(a)[i] == Texts(b)[i];
      EncodingIsInjective(a[i].tokens, b[i].tokens);
      assert LineWf(a[i]) && LineWf(b[i]);
      NamesDiffer(a[i].chain, b[i].chain);
    }
  }

  lemma SortedForms(lines: seq<Line>)
    ensures Sorted(Sort(lines)) && SameChains(Sort(lines), lines) && (AllWf(lines) ==> AllWf(Sort(lines)))
  {
    SortSorts(lines);
    forall c ensures InChain(Sort(lines), c) == InChain(lines, c) { SortKeepsChains(lines, c); }
  }

  lemma SameChainsSortAlike(a: seq<Line>, b: seq<Line>)
    ensures SameChains(a, b) <==> Sort(a) == Sort(b)
  {
    SortedForms(a);
    SortedForms(b);
    if SameChains(a, b) {
      assert SameChains(Sort(a), Sort(b));
      SortedIsUnique(Sort(a), Sort(b));
    }
    if Sort(a) == Sort(b) {
      forall c ensures InChain(a, c) == InChain(b, c) { assert InChain(Sort(a), c) == InChain(Sort(b), c); }
    }
  }

  /** One table compares equal exactly when every chain holds the same rules in the same order. */
  lemma TableComparisonIsExact(a: seq<Line>, b: seq<Line>)
    requires AllWf(a) && AllWf(b)
    ensures Ordered(a) == Ordered(b) <==> SameChains(a, b)
  {
    SortedForms(a);
    SortedForms(b);
    SameChainsSortAlike(a, b);
    if Ordered(a) == Ordered(b) { TextsAreInjective(Sort(a), Sort(b)); }
  }

  /** Every compiled policy fills its mangle chains, and its filter table has the packet chain. */
  ghost predicate Compiled(mangle: seq<Line>, filter: seq<Line>) {
    && mangle != [] && (forall l :: l in mangle ==> MangleChain(l.chain))
    && exists l :: l in filter && l.chain.AppPacket?
  }

  /** The concatenation falls exactly once, between the tables, so two such lists split at the same place. */
  lemma SplitsAlike(s: seq<Line>, t: seq<Line>, x: seq<Line>, y: seq<Line>)
    requires Sorted(s) && Sorted(t) && Sorted(x) && Sorted(y) && s + t == x + y
    requires s != [] && t != [] && Rank(s[|s| - 1].chain) > Rank(t[0].chain)
    ensures s == x && t == y
  {
    var n := |s|;
    var all := s + t;
    assert all[n - 1] == s[n - 1] && all[n] == t[0];
    RisesWithin(x, y);
    assert n == |x|;
    assert all[..n] == s && all[n..] == t && all[..|x|] == x && all[|x|..] == y;
  }

  lemma RisesWithin(x: seq<Line>, y: seq<Line>)
    requires Sorted(x) && Sorted(y)
    ensures forall i :: 0 < i < |x + y| && i != |x| ==> Rank((x + y)[i - 1].chain) <= Rank((x + y)[i].chain)
  {
  }

  lemma CompiledFalls(mangle: seq<Line>, filter: seq<Line>)
    requires Compiled(mangle, filter)
    ensures var s, t := Sort(mangle), Sort(filter); s != [] && t != [] && Rank(s[|s| - 1].chain) > Rank(t[0].chain)
  {
    SortSorts(mangle);
    SortSorts(filter);
    var l :| l in filter && l.chain.AppPacket?;
    assert mangle[0] in Sort(mangle) && l in Sort(filter);
    var t := Sort(filter);
    var i :| 0 <= i < |t| && t[i] == l;
    assert Rank(t[0].chain) <= Rank(t[i].chain);
  }

  /** Whatever was captured, wherever it was listed: the two tables together compare equal to a compiled policy
      exactly when each chain of each table holds the compiled rules in the compiled order. */
  lemma InstalledIffCompiled(mangle: seq<Line>, filter: seq<Line>, mangle': seq<Line>, filter': seq<Line>)
    requires AllWf(mangle) && AllWf(filter) && AllWf(mangle') && AllWf(filter') && Compiled(mangle, filter)
    ensures Ordered(mangle) + Ordered(filter) == Ordered(mangle') + Ordered(filter')
            <==> SameChains(mangle, mangle') && SameChains(filter, filter')
  {
    var s, t, x, y := Sort(mangle), Sort(filter), Sort(mangle'), Sort(filter');
    SortedForms(mangle);
    SortedForms(filter);
    SortedForms(mangle');
    SortedForms(filter');
    SameChainsSortAlike(mangle, mangle');
    SameChainsSortAlike(filter, filter');
    TextsSplit(s, t);
    TextsSplit(x, y);
    if Texts(s) + Texts(t) == Texts(x) + Texts(y) {
      TextsAreInjective(s + t, x + y);
      CompiledFalls(mangle, filter);
      SplitsAlike(s, t, x, y);
    }
  }
}

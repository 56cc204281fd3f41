/** Which spellings of a rule normalise alike, and which never do. */
module NormalForms {
  import opened Basics
  import opened Model
  import opened Numerals
  import opened RuleComparison

  // ---------------------------------------------------------------- numbers

  lemma {:induction false} DecimalHasNoX(n: nat, c: char)
    requires c == 'x' || c == 'X'
    ensures c !in Numeral(n, 10)
  {
    assert n < 10 ==> DIGITS[n] != c;
    assert DIGITS[n % 10] != c;
    if n >= 10 { DecimalHasNoX(n / 10, c); }
  }

  /** A number means the same in decimal and in hexadecimal, and neither may exceed 32 bits. */
  lemma SpellingsAgree(n: nat)
    ensures ParseNumber(Decimal(n)) == ParseNumber("0x" + Numeral(n, 16)) == if n < 0x1_0000_0000 then Some(n) else None
  {
    var hex := "0x" + Numeral(n, 16);
    NumeralReads(n, 16);
    NumeralIsPlain(n, 16, '+');
    assert hex[2..] == Numeral(n, 16) && Numeral(n, 16)[0] in Numeral(n, 16);
    NumeralReads(n, 10);
    var s := Decimal(n);
    DecimalHasNoX(n, 'x');
    DecimalHasNoX(n, 'X');
    NumeralIsPlain(n, 10, '+');
    assert s[0] in s && (|s| > 1 ==> s[1] in s);
  }

  // ---------------------------------------------------------------- the SYN shorthand

  lemma {:induction false} ExpandConcat(a: seq<string>, b: seq<string>)
    ensures ExpandSyn(a + b) == ExpandSyn(a) + ExpandSyn(b)
  {
    if a == [] {
      assert a + b == b;
    } else {
      assert (a + b)[1..] == a[1..] + b;
      ExpandConcat(a[1..], b);
      Regroup(if a[0] == "--syn" then SYN_FLAGS else [a[0]], ExpandSyn(a[1..]), ExpandSyn(b));
    }
  }

  const EXPANDED_SYN := ["--tcp-flags", "FIN,SYN,RST,ACK", "SYN"]

  lemma SynExpands()
    ensures ExpandSyn(["--syn"]) == EXPANDED_SYN == ExpandSyn(EXPANDED_SYN)
  {
    assert EXPANDED_SYN[1..] == ["FIN,SYN,RST,ACK", "SYN"] && EXPANDED_SYN[1..][1..] == ["SYN"] && ["SYN"][1..] == [];
    assert ExpandSyn(["SYN"]) == ["SYN"];
    assert ExpandSyn(EXPANDED_SYN[1..]) == ["FIN,SYN,RST,ACK"] + ExpandSyn(["SYN"]);
    assert ["--syn"][1..] == [];
  }

  /** Wherever it stands, `--syn` is its flag mask. */
  lemma SynIsItsMask(a: seq<string>, b: seq<string>)
    ensures Normal(a + ["--syn"] + b) == Normal(a + ["--tcp-flags", "FIN,SYN,RST,ACK", "SYN"] + b)
  {
    SynExpands();
    ExpandConcat(a, ["--syn"]);
    ExpandConcat(a + ["--syn"], b);
    ExpandConcat(a, EXPANDED_SYN);
    ExpandConcat(a + EXPANDED_SYN, b);
  }

  // ---------------------------------------------------------------- the implied match module

  lemma {:induction false} ProtocolFound(a: seq<string>, x: string, rest: seq<string>)
    requires "-p" !in a
    ensures ProtocolOf(a + ["-p", x] + rest) == Some(x)
  {
    var t := a + ["-p", x] + rest;
    if a != [] {
      ProtocolFound(a[1..], x, rest);
      assert t[1..] == a[1..] + ["-p", x] + rest && t[0] == a[0];
    }
  }

  predicate AwaitsModule(t: seq<string>) { t != [] && t[|t| - 1] == "-m" }

  lemma {:induction false} DropConcat(a: seq<string>, rest: seq<string>, x: string)
    requires AwaitsModule(a) ==> rest == [] || rest[0] != x
    ensures DropModule(a + rest, x) == DropModule(a, x) + DropModule(rest, x)
    decreases |a|
  {
    var t := a + rest;
    if a == [] {
      assert t == rest;
    } else if |a| >= 2 && a[0] == "-m" && a[1] == x {
      DropConcat(a[2..], rest, x);
      assert t[2..] == a[2..] + rest;
    } else {
      DropConcat(a[1..], rest, x);
      assert t[1..] == a[1..] + rest && t[0] == a[0];
      assert |t| >= 2 ==> t[1] == if |a| == 1 then rest[0] else a[1];
      DropHead(t, x);
      DropHead(a, x);
      Regroup([a[0]], DropModule(a[1..], x), DropModule(rest, x));
    }
  }

  lemma DropHead(a: seq<string>, x: string)
    requires a != [] && (|a| < 2 || a[0] != "-m" || a[1] != x)
    ensures DropModule(a, x) == [a[0]] + DropModule(a[1..], x)
  {
    if |a| == 1 { assert a[1..] == [] && a == [a[0]]; }
  }

  lemma ModuleDrops(h: seq<string>, x: string, d: seq<string>)
    requires !AwaitsModule(h)
    ensures DropModule(h + ["-m", x] + d, x) == DropModule(h + d, x)
  {
    var added := ["-m", x] + d;
    assert h + ["-m", x] + d == h + added && added[2..] == d;
    DropConcat(h, added, x);
    DropConcat(h, d, x);
  }

  lemma {:induction false} ExpandedTokens(t: seq<string>)
    ensures "-p" !in t ==> "-p" !in ExpandSyn(t)
    ensures !AwaitsModule(t) ==> !AwaitsModule(ExpandSyn(t))
    ensures ExpandSyn(t) == [] <==> t == []
  {
    if t != [] {
      ExpandedTokens(t[1..]);
      assert SYN_FLAGS[|SYN_FLAGS| - 1] == "SYN" && "-p" !in SYN_FLAGS;
    }
  }

  lemma ExpandPlain(t: seq<string>)
    requires |t| == 2 && t[0] != "--syn" && t[1] != "--syn"
    ensures ExpandSyn(t) == t
  {
    assert t[1..] == [t[1]] && t[1..][1..] == [];
    assert ExpandSyn([t[1]]) == [t[1]];
  }

  /** How a rule of these parts is expanded. */
  lemma ExpandParts(a: seq<string>, p: seq<string>, c: seq<string>, m: seq<string>, d: seq<string>)
    requires ExpandSyn(p) == p && ExpandSyn(m) == m
    ensures ExpandSyn(a + p + c + m + d) == ExpandSyn(a) + p + ExpandSyn(c) + m + ExpandSyn(d)
  {
    ExpandConcat(a, p);
    ExpandConcat(a + p, c);
    ExpandConcat(a + p + c, m);
    ExpandConcat(a + p + c + m, d);
  }

  /** Dropping the module behind its protocol. */
  lemma ModuleDropped(a: seq<string>, x: string, c: seq<string>, m: seq<string>, d: seq<string>)
    requires (x == "tcp" || x == "udp") && "-p" !in a && !AwaitsModule(c) && (m == [] || m == ["-m", x])
    ensures var t := a + ["-p", x] + c + m + d;
            ProtocolOf(t) == Some(x) && DropModule(t, x) == DropModule(a + ["-p", x] + c + d, x)
  {
    var h := a + ["-p", x] + c;
    assert h + m + d == a + ["-p", x] + (c + m + d);
    ProtocolFound(a, x, c + m + d);
    assert !AwaitsModule(h) by { assert h[|h| - 1] == if c == [] then x else c[|c| - 1]; }
    if m != [] { ModuleDrops(h, x, d); } else { assert h + m == h; }
  }

  /** Behind `-p tcp` or `-p udp`, the match module of that protocol says nothing new. */
  lemma ModuleIsImplied(a: seq<string>, x: string, c: seq<string>, d: seq<string>)
    requires (x == "tcp" || x == "udp") && "-p" !in a && !AwaitsModule(c)
    ensures Normal(a + ["-p", x] + c + ["-m", x] + d) == Normal(a + ["-p", x] + c + d)
  {
    var h := a + ["-p", x] + c;
    ExpandPlain(["-p", x]);
    ExpandPlain(["-m", x]);
    ExpandParts(a, ["-p", x], c, ["-m", x], d);
    ExpandParts(a, ["-p", x], c, [], d);
    assert h + [] == h;
    ExpandedTokens(a);
    ExpandedTokens(c);
    ModuleDropped(ExpandSyn(a), x, ExpandSyn(c), ["-m", x], ExpandSyn(d));
    ModuleDropped(ExpandSyn(a), x, ExpandSyn(c), [], ExpandSyn(d));
  }

  // ---------------------------------------------------------------- marks

  predicate Alike(m: string, n: string) { ParseMark(m).Some? && ParseMark(m) == ParseMark(n) }

  /** A mark is neither an option nor a protocol. */
  lemma MarksAreNumbers(m: string)
    requires ParseMark(m).Some?
    ensures m != "--syn" && m != "-p" && m != "-m" && m != "tcp" && m != "udp" && !MarkOption(m)
  {
    if m != "" && (m[0] == '-' || m[0] == 't' || m[0] == 'u') { NotANumber(m); }
  }

  lemma NotANumber(m: string)
    requires m != "" && (m[0] == '-' || m[0] == 't' || m[0] == 'u')
    ensures ParseMark(m).None?
  {
    var value := m[..Slash(m)];
    assert Slash(m) > 0 && value[0] == m[0] && Digit(m[0]).None?;
    assert !("0x" <= value) && !("0X" <= value);
    BadDigit(value, 10);
  }

  lemma {:induction false} BadDigit(s: string, b: nat)
    requires Base(b) && s != "" && Digit(s[0]).None?
    ensures Read(s, b).None?
  {
    if |s| > 1 { BadDigit(s[..|s| - 1], b); }
  }

  lemma {:induction false} ProtocolIgnoresMark(a: seq<string>, opt: string, m: string, n: string, b: seq<string>)
    requires MarkOption(opt) && m != "-p" && n != "-p"
    ensures ProtocolOf(a + [opt, m] + b) == ProtocolOf(a + [opt, n] + b)
  {
    var t, u := a + [opt, m] + b, a + [opt, n] + b;
    if a == [] {
      assert t[1..] == [m] + b && u[1..] == [n] + b;
      assert b != [] ==> ([m] + b)[1..] == b && ([n] + b)[1..] == b;
    } else {
      ProtocolIgnoresMark(a[1..], opt, m, n, b);
      assert t[1..] == a[1..] + [opt, m] + b && u[1..] == a[1..] + [opt, n] + b;
      assert t[1] == u[1];
    }
  }

  lemma DropAtMark(opt: string, m: string, b: seq<string>, x: string)
    requires MarkOption(opt) && m != "-m"
    ensures DropModule([opt, m] + b, x) == [opt, m] + DropModule(b, x)
  {
    var t := [opt, m] + b;
    assert t[1..] == [m] + b && ([m] + b)[1..] == b && t[1..][0] == m;
    DropHead(t, x);
    DropHead([m] + b, x);
  }

  lemma DropKeepsMark(a: seq<string>, opt: string, m: string, b: seq<string>, x: string)
    requires MarkOption(opt) && m != "-m" && (x == "tcp" || x == "udp")
    ensures DropModule(a + [opt, m] + b, x) == DropModule(a, x) + [opt, m] + DropModule(b, x)
  {
    assert a + [opt, m] + b == a + ([opt, m] + b) && ([opt, m] + b)[0] == opt;
    DropConcat(a, [opt, m] + b, x);
    DropAtMark(opt, m, b, x);
    Regroup(DropModule(a, x), [opt, m], DropModule(b, x));
  }

  /** What is left to normalise behind the first token, if its mark can be read. */
  function Rest(t: seq<string>): seq<string>
    requires |t| >= 2 && (MarkOption(t[0]) ==> ParseMark(t[1]).Some?)
  {
    if MarkOption(t[0]) then [PrintMark(ParseMark(t[1]).value)] + t[2..] else t[1..]
  }

  lemma RestFollows(t: seq<string>, u: seq<string>)
    requires |t| >= 2 && |u| >= 2 && t[0] == u[0]
    requires MarkOption(t[0]) ==> ParseMark(t[1]).Some? && ParseMark(u[1]).Some?
    requires NormalMarks(Rest(t)) == NormalMarks(Rest(u))
    ensures NormalMarks(t) == NormalMarks(u)
  {
  }

  lemma UnreadableMark(t: seq<string>)
    requires |t| >= 2 && MarkOption(t[0]) && ParseMark(t[1]).None?
    ensures NormalMarks(t) == Err(BadMark)
  {
  }

  lemma RestAt(opt: string, m: string, n: string, b: seq<string>)
    requires MarkOption(opt) && Alike(m, n)
    ensures Rest([opt, m] + b) == Rest([opt, n] + b)
  {
    assert ([opt, m] + b)[2..] == b && ([opt, n] + b)[2..] == b;
  }

  /** The tokens in front of an option, one step further on; `None` if a mark among them cannot be read. */
  function Further(a: seq<string>): Option<seq<string>>
    requires a != []
  {
    if !MarkOption(a[0]) then Some(a[1..])
    else if |a| == 1 || ParseMark(a[1]).None? then None
    else Some([PrintMark(ParseMark(a[1]).value)] + a[2..])
  }

  lemma FurtherIsRest(a: seq<string>, opt: string, m: string, b: seq<string>)
    requires a != [] && MarkOption(opt)
    ensures var t := a + [opt, m] + b;
            if Further(a).None? then MarkOption(t[0]) && ParseMark(t[1]).None?
            else (MarkOption(t[0]) ==> ParseMark(t[1]).Some?) && Rest(t) == Further(a).value + [opt, m] + b
  {
    var t := a + [opt, m] + b;
    NotANumber(opt);
    assert t[0] == a[0] && t[1] == if |a| == 1 then opt else a[1];
    if |a| > 1 { assert t[2..] == a[2..] + [opt, m] + b; }
    assert t[1..] == a[1..] + [opt, m] + b;
  }

  lemma {:induction false} MarksNormaliseAlike(a: seq<string>, opt: string, m: string, n: string, b: seq<string>)
    requires MarkOption(opt) && Alike(m, n)
    ensures NormalMarks(a + [opt, m] + b) == NormalMarks(a + [opt, n] + b)
    decreases |a|
  {
    var t, u := a + [opt, m] + b, a + [opt, n] + b;
    if a == [] {
      assert t == [opt, m] + b && u == [opt, n] + b;
      RestAt(opt, m, n, b);
      RestFollows(t, u);
    } else {
      FurtherIsRest(a, opt, m, b);
      FurtherIsRest(a, opt, n, b);
      match Further(a)
      case None =>
        UnreadableMark(t);
        UnreadableMark(u);
      case Some(next) =>
        MarksNormaliseAlike(next, opt, m, n, b);
        RestFollows(t, u);
    }
  }

  /** Two spellings of one mark argument are the same rule. */
  lemma MarksAreTheirValue(a: seq<string>, opt: string, m: string, n: string, b: seq<string>)
    requires MarkOption(opt) && Alike(m, n)
    ensures Normal(a + [opt, m] + b) == Normal(a + [opt, n] + b)
  {
    MarksAreNumbers(m);
    MarksAreNumbers(n);
    ExpandPlain([opt, m]);
    ExpandPlain([opt, n]);
    ExpandConcat(a, [opt, m]);
    ExpandConcat(a + [opt, m], b);
    ExpandConcat(a, [opt, n]);
    ExpandConcat(a + [opt, n], b);
    var ea, eb := ExpandSyn(a), ExpandSyn(b);
    ProtocolIgnoresMark(ea, opt, m, n, eb);
    var protocol := ProtocolOf(ea + [opt, m] + eb);
    if protocol == Some("tcp") || protocol == Some("udp") {
      DropKeepsMark(ea, opt, m, eb, protocol.value);
      DropKeepsMark(ea, opt, n, eb, protocol.value);
      MarksNormaliseAlike(DropModule(ea, protocol.value), opt, m, n, DropModule(eb, protocol.value));
    } else {
      MarksNormaliseAlike(ea, opt, m, n, eb);
    }
  }

  // ---------------------------------------------------------------- nothing else is identified

  /** The first `-p` of the rule names this protocol. */
  predicate NamesProtocol(t: seq<string>, x: string) {
    exists i :: 0 <= i < |t| - 1 && t[i] == "-p" && t[i + 1] == x && "-p" !in t[..i]
  }

  predicate MarkPrinted(t: seq<string>, i: nat)
    requires i + 1 < |t|
  {
    MarkOption(t[i]) ==> ParseMark(t[i + 1]).Some? && t[i + 1] == PrintMark(ParseMark(t[i + 1]).value)
  }

  predicate NoModule(t: seq<string>, x: string) { forall i :: 0 <= i < |t| - 1 ==> !(t[i] == "-m" && t[i + 1] == x) }

  /** No shorthand, no implied module, every mark printed the one way. */
  predicate IsNormal(t: seq<string>) {
    && t != [] && "--syn" !in t
    && (forall x :: x in {"tcp", "udp"} && NamesProtocol(t, x) ==> NoModule(t, x))
    && (forall i :: 0 <= i < |t| - 1 ==> MarkPrinted(t, i))
  }

  lemma {:induction false} ExpandLeaves(t: seq<string>)
    requires "--syn" !in t
    ensures ExpandSyn(t) == t
  {
    if t != [] { ExpandLeaves(t[1..]); }
  }

  lemma {:induction false} DropLeaves(t: seq<string>, x: string)
    requires NoModule(t, x)
    ensures DropModule(t, x) == t
  {
    if |t| >= 2 {
      forall i | 0 <= i < |t[1..]| - 1 ensures !(t[1..][i] == "-m" && t[1..][i + 1] == x) {
        assert t[1..][i] == t[i + 1] && t[1..][i + 1] == t[i + 1 + 1];
      }
      DropLeaves(t[1..], x);
    }
  }

  lemma {:induction false} MarksLeave(t: seq<string>)
    requires forall i :: 0 <= i < |t| - 1 ==> MarkPrinted(t, i)
    ensures NormalMarks(t) == Ok(t)
  {
    if |t| >= 2 {
      forall i | 0 <= i < |t[1..]| - 1 ensures MarkPrinted(t[1..], i) { assert MarkPrinted(t, i + 1); }
      MarksLeave(t[1..]);
      assert MarkPrinted(t, 0);
      assert [t[1]] + t[2..] == t[1..] && [t[0]] + t[1..] == t;
    }
  }

  lemma {:induction false} ProtocolIsFirst(t: seq<string>)
    requires ProtocolOf(t).Some?
    ensures NamesProtocol(t, ProtocolOf(t).value)
  {
    if t[0] == "-p" {
      assert "-p" !in t[..0];
    } else {
      ProtocolIsFirst(t[1..]);
      var i :| 0 <= i < |t[1..]| - 1 && t[1..][i] == "-p" && t[1..][i + 1] == ProtocolOf(t).value && "-p" !in t[1..][..i];
      assert t[..i + 1] == [t[0]] + t[1..][..i];
      assert t[i + 1] == "-p" && t[i + 2] == ProtocolOf(t).value && "-p" !in t[..i + 1];
    }
  }

  /** A rule in normal form is its own normal form, so two different ones never compare equal. */
  lemma NormalFormsStay(t: seq<string>)
    requires IsNormal(t)
    ensures Normal(t) == Ok(t)
  {
    ExpandLeaves(t);
    var protocol := ProtocolOf(t);
    if protocol == Some("tcp") || protocol == Some("udp") {
      ProtocolIsFirst(t);
      DropLeaves(t, protocol.value);
    }
    MarksLeave(t);
  }
}

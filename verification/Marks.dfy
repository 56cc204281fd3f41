/** The private bits of packet marks and connection marks.

    On the wire both are 32-bit words. The top two packet-mark bits carry a domain and the low
    thirty belong to the host; OpenShield owns the low 31 connection-mark bits and bit 31 belongs
    to the host. The packet semantics works on the words' fields; the lemmas here show that reading
    the fields loses nothing and turns every masked operation the backends emit into a field update. */
module Marks {
  import opened Model

  // ---------------------------------------------------------------- words

  /** Thirty-two bits, lowest first. */
  type Word = w: seq<bool> | |w| == 32 witness seq(32, i => false)

  function Bits(low: nat, high: nat): Word { seq(32, i => low <= i < high) }

  const ZERO := Bits(0, 0)
  const DOMAIN := Bits(30, 32)
  const PAYLOAD := Bits(0, 30)
  const OWNED := Bits(0, 31)
  const FOREIGN := Bits(31, 32)
  const AUTHORIZED := Bits(30, 31)

  function And(a: Word, b: Word): Word { seq(32, i requires 0 <= i < 32 => a[i] && b[i]) }

  function Or(a: Word, b: Word): Word { seq(32, i requires 0 <= i < 32 => a[i] || b[i]) }

  function Xor(a: Word, b: Word): Word { seq(32, i requires 0 <= i < 32 => a[i] != b[i]) }

  function Not(a: Word): Word { seq(32, i requires 0 <= i < 32 => !a[i]) }

  /** The `k` lowest binary digits of a number, lowest first, and the number such digits denote. */
  function Digits(n: nat, k: nat): (bits: seq<bool>)
    ensures |bits| == k
  {
    if k == 0 then [] else [n % 2 == 1] + Digits(n / 2, k - 1)
  }

  function Value(bits: seq<bool>): nat { if bits == [] then 0 else 2 * Value(bits[1..]) + if bits[0] then 1 else 0 }

  lemma {:induction false} DigitsReadBack(n: nat, k: nat)
    requires n < Pow2(k)
    ensures Value(Digits(n, k)) == n
  {
    if k > 0 {
      DigitsReadBack(n / 2, k - 1);
      assert Digits(n, k)[1..] == Digits(n / 2, k - 1);
    }
  }

  lemma {:induction false} ValuesReadBack(bits: seq<bool>)
    ensures Digits(Value(bits), |bits|) == bits
  {
    if bits != [] { ValuesReadBack(bits[1..]); }
  }

  // ---------------------------------------------------------------- the source's operations

  datatype Domain = Clear | Rejected | Pending | Handoff

  function Code(d: Domain): Word {
    match d
    case Clear => ZERO
    case Rejected => Bits(30, 31)
    case Pending => Bits(31, 32)
    case Handoff => Bits(30, 32)
  }

  // nftables `meta mark set (meta mark & keep) | bits`.
  function AndOr(word: Word, keep: Word, bits: Word): Word { Or(And(word, keep), bits) }

  // xtables `--set-xmark value/mask`.
  function SetXmark(word: Word, value: Word, mask: Word): Word { Xor(And(word, Not(mask)), value) }

  /** Bits 30 and 31 count the attempts, saturating at three. */
  function RetryWord(word: Word): Word {
    var attempts := Value(word[30..]);
    var next := if attempts < 3 then attempts + 1 else 3;
    Or(ZERO[..30] + Digits(next, 2), And(word, PAYLOAD))
  }

  function GenerationWord(generation: nat): Word { Digits(generation, 32) }

  function FlowWord(generation: nat): Word { Or(AUTHORIZED, And(GenerationWord(generation), PAYLOAD)) }

  function RejectWord(generation: nat): Word { And(GenerationWord(generation), PAYLOAD) }

  // ---------------------------------------------------------------- the fields

  datatype Mark = Mark(domain: Domain, host: nat)

  /** `authorized` is bit 30: set on an authorized flow, clear on a rejection or a reset. */
  datatype Connmark = Connmark(foreign: bool, authorized: bool, generation: nat)

  function ReadDomain(word: Word): Domain {
    if word[31] then if word[30] then Handoff else Pending
    else if word[30] then Rejected else Clear
  }

  function ReadMark(word: Word): Mark { Mark(ReadDomain(word), Value(word[..30])) }

  function ReadConnmark(word: Word): Connmark { Connmark(word[31], word[30], Value(word[..30])) }

  /** The next retry domain; at `Handoff` the budget is spent. */
  function NextDomain(d: Domain): Domain {
    match d
    case Clear => Rejected
    case Rejected => Pending
    case Pending => Handoff
    case Handoff => Handoff
  }

  function RetryMark(m: Mark): Mark { m.(domain := NextDomain(m.domain)) }

  function RetriesLeft(m: Mark): nat {
    match m.domain case Clear => 3 case Rejected => 2 case Pending => 1 case Handoff => 0
  }

  function FlowMark(c: Connmark, generation: nat): Connmark { Connmark(c.foreign, true, generation) }

  function RejectedFlow(c: Connmark, generation: nat): Connmark { Connmark(c.foreign, false, generation) }

  // ---------------------------------------------------------------- fields are the words

  lemma PayloadsAreValues(v: Word, w: Word)
    requires Value(v[..30]) == Value(w[..30])
    ensures v[..30] == w[..30]
  {
    ValuesReadBack(v[..30]);
    ValuesReadBack(w[..30]);
  }

  lemma WordsFromParts(v: Word, w: Word)
    requires v[..30] == w[..30] && v[30] == w[30] && v[31] == w[31]
    ensures v == w
  {
    forall i | 0 <= i < 32 ensures v[i] == w[i] {
      if i < 30 { assert v[i] == v[..30][i] == w[..30][i]; }
    }
  }

  /** Reading the fields loses nothing. */
  lemma MarkIsItsFields(v: Word, w: Word)
    requires ReadMark(v) == ReadMark(w)
    ensures v == w
  {
    PayloadsAreValues(v, w);
    WordsFromParts(v, w);
  }

  lemma ConnmarkIsItsFields(v: Word, w: Word)
    requires ReadConnmark(v) == ReadConnmark(w)
    ensures v == w
  {
    PayloadsAreValues(v, w);
    WordsFromParts(v, w);
  }

  /** A masked comparison with a domain code reads the domain. */
  lemma DomainTest(word: Word, d: Domain)
    ensures And(word, DOMAIN) == Code(d) <==> ReadDomain(word) == d
  {
    var masked, code := And(word, DOMAIN), Code(d);
    assert masked[30] == word[30] && masked[31] == word[31];
    if ReadDomain(word) == d {
      assert forall i :: 0 <= i < 32 ==> masked[i] == code[i];
    }
  }

  /** A domain write changes the domain and nothing else. */
  lemma DomainWrite(word: Word, d: Domain)
    ensures ReadMark(AndOr(word, PAYLOAD, Code(d))) == ReadMark(word).(domain := d)
  {
    assert AndOr(word, PAYLOAD, Code(d))[..30] == word[..30];
  }

  /** The xtables spelling of a domain write is the nftables one. */
  lemma DomainSpellings(word: Word, d: Domain)
    ensures SetXmark(word, Code(d), DOMAIN) == AndOr(word, PAYLOAD, Code(d))
  {
  }

  /** The saturating two-bit counter is the step through the domains. */
  lemma RetryWrite(word: Word)
    ensures ReadMark(RetryWord(word)) == RetryMark(ReadMark(word))
  {
    TopBitsCount(word);
    assert RetryWord(word)[..30] == word[..30];
    assert Digits(1, 2) == [true, false] && Digits(2, 2) == [false, true] && Digits(3, 2) == [true, true];
  }

  lemma TopBitsCount(word: Word)
    ensures Value(word[30..]) == (if word[30] then 1 else 0) + if word[31] then 2 else 0
  {
    assert word[30..][1..] == [word[31]] && [word[31]][1..] == [];
    assert Value([word[31]]) == if word[31] then 1 else 0;
  }

  /** A generation fits the payload bits, which denote it. */
  lemma GenerationFits(generation: nat)
    requires generation <= MAX_GENERATION
    ensures Value(GenerationWord(generation)[..30]) == generation
  {
    LowDigits(generation, 32, 30);
    PayloadRoom();
    DigitsReadBack(generation, 30);
  }

  lemma FiveMoreBits(k: nat)
    ensures Pow2(k + 5) == 32 * Pow2(k)
  {
    assert Pow2(k + 1) == 2 * Pow2(k);
    assert Pow2(k + 3) == 2 * Pow2(k + 2) == 4 * Pow2(k + 1);
    assert Pow2(k + 5) == 2 * Pow2(k + 4) == 4 * Pow2(k + 3);
  }

  lemma PayloadRoom()
    ensures Pow2(30) == MAX_GENERATION + 1
  {
    FiveMoreBits(0);
    FiveMoreBits(5);
    FiveMoreBits(10);
    FiveMoreBits(15);
    FiveMoreBits(20);
    FiveMoreBits(25);
  }

  lemma {:induction false} LowDigits(n: nat, k: nat, j: nat)
    requires j <= k
    ensures Digits(n, k)[..j] == Digits(n, j)
  {
    if j > 0 {
      LowDigits(n / 2, k - 1, j - 1);
      assert Digits(n, k)[..j] == [n % 2 == 1] + Digits(n / 2, k - 1)[..j - 1];
    }
  }

  /** Stamping an authorized flow keeps the host's bit. */
  lemma FlowWrite(word: Word, generation: nat)
    requires generation <= MAX_GENERATION
    ensures ReadConnmark(AndOr(word, FOREIGN, FlowWord(generation))) == FlowMark(ReadConnmark(word), generation)
  {
    GenerationFits(generation);
    assert AndOr(word, FOREIGN, FlowWord(generation))[..30] == GenerationWord(generation)[..30];
  }

  lemma RejectWrite(word: Word, generation: nat)
    requires generation <= MAX_GENERATION
    ensures ReadConnmark(AndOr(word, FOREIGN, RejectWord(generation))) == RejectedFlow(ReadConnmark(word), generation)
  {
    GenerationFits(generation);
    assert AndOr(word, FOREIGN, RejectWord(generation))[..30] == GenerationWord(generation)[..30];
  }

  lemma ResetWrite(word: Word)
    ensures ReadConnmark(And(word, FOREIGN)) == RejectedFlow(ReadConnmark(word), 0)
  {
    assert And(word, FOREIGN)[..30] == ZERO[..30] == Digits(0, 30) by { ZeroDigits(30); }
    assert Pow2(30) > 0;
    DigitsReadBack(0, 30);
  }

  lemma {:induction false} ZeroDigits(k: nat)
    ensures Digits(0, k) == seq(k, i => false)
  {
    if k > 0 { ZeroDigits(k - 1); }
  }

  /** The xtables spelling of a connection-mark write is the nftables one. */
  lemma ConnmarkSpellings(word: Word, value: Word)
    requires !value[31]
    ensures SetXmark(word, value, OWNED) == AndOr(word, FOREIGN, value)
  {
  }

  lemma OwnedTest(word: Word, value: Word)
    requires !value[31]
    ensures And(word, OWNED) == value <==> word[30] == value[30] && word[..30] == value[..30]
  {
    var owned := And(word, OWNED);
    assert owned[..30] == word[..30] && owned[30] == word[30] && !owned[31];
    if word[30] == value[30] && word[..30] == value[..30] { WordsFromParts(owned, value); }
  }

  /** The masked comparison with a flow word reads exactly the two owned fields. */
  lemma FlowTest(word: Word, generation: nat)
    requires generation <= MAX_GENERATION
    ensures And(word, OWNED) == FlowWord(generation) <==>
            ReadConnmark(word) == FlowMark(ReadConnmark(word), generation)
  {
    GenerationFits(generation);
    OwnedTest(word, FlowWord(generation));
    assert FlowWord(generation)[..30] == GenerationWord(generation)[..30];
    if Value(word[..30]) == generation { PayloadsAreValues(word, FlowWord(generation)); }
  }

  lemma RejectTest(word: Word, generation: nat)
    requires generation <= MAX_GENERATION
    ensures And(word, OWNED) == RejectWord(generation) <==>
            ReadConnmark(word) == RejectedFlow(ReadConnmark(word), generation)
  {
    GenerationFits(generation);
    OwnedTest(word, RejectWord(generation));
    assert RejectWord(generation)[..30] == GenerationWord(generation)[..30];
    if Value(word[..30]) == generation { PayloadsAreValues(word, RejectWord(generation)); }
  }

  /** No two generations share a flow word or a reject word, and no flow word is a reject word. */
  lemma StampsNeverCollide(g: nat, h: nat)
    requires g <= MAX_GENERATION && h <= MAX_GENERATION
    ensures FlowWord(g) != RejectWord(h)
    ensures FlowWord(g) == FlowWord(h) ==> g == h
    ensures RejectWord(g) == RejectWord(h) ==> g == h
  {
    GenerationFits(g);
    GenerationFits(h);
    assert FlowWord(g)[30] && !RejectWord(h)[30];
    assert FlowWord(g)[..30] == RejectWord(g)[..30] == GenerationWord(g)[..30];
    assert FlowWord(h)[..30] == RejectWord(h)[..30] == GenerationWord(h)[..30];
  }
}

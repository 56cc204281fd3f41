/** What networks and port ranges contain. */
module Addresses {
  import opened Model

  lemma DivisionIsInterval(a: nat, b: nat, m: nat)
    requires m > 0
    ensures a / m == b / m <==> b - b % m <= a < b - b % m + m
  {
    var q := b / m;
    assert b - b % m == q * m;
    assert a == (a / m) * m + a % m;
    if a / m == q {
      assert (a / m) * m == q * m;
    } else if a / m < q {
      MultiplesGrow(a / m, q, m);
    } else {
      MultiplesGrow(q, a / m, m);
    }
  }

  lemma MultiplesGrow(x: nat, y: nat, m: nat)
    requires x < y
    ensures x * m + m <= y * m
  {
    assert (y - x - 1) * m >= 0;
    assert y * m == x * m + m + (y - x - 1) * m;
  }

  /** A network of prefix length `k` is an aligned block of two to the power of the remaining bits. */
  lemma ContainsIsBlock(net: Network, a: Address)
    requires net.prefix <= Width(net.family)
    ensures var size := Pow2(Width(net.family) - net.prefix);
            var low := net.base - net.base % size;
            Contains(net, a) <==> a.family == net.family && low <= a.bits < low + size
  {
    DivisionIsInterval(a.bits, net.base, Pow2(Width(net.family) - net.prefix));
  }

  /** The network of a host holds that host only. */
  lemma HostIsAlone(a: Address, x: Address)
    ensures Contains(HostNetwork(a), x) <==> x == a
  {
    ContainsIsBlock(HostNetwork(a), x);
  }

  /** A range of one port is that port, and a range is the union of its two parts, wherever it is cut. */
  lemma RangesAreIntervals(start: nat, cut: nat, end: nat, port: nat)
    requires start <= cut < end
    ensures InRange(PortRange(start, end), port) <==> InRange(PortRange(start, cut), port) || InRange(PortRange(cut + 1, end), port)
    ensures !(InRange(PortRange(start, cut), port) && InRange(PortRange(cut + 1, end), port))
    ensures InRange(PortRange(start, start), port) <==> port == start
  {
  }
}

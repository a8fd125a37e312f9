/**
 * Slot identities: the module-wide counter `dynamicAdCount` and the
 * names `"adSlot-<n>"` it hands out.  The counter starts at 0, is
 * incremented once per generated name and is never reset, so a name is
 * never handed out twice.
 */
module SlotIds {

  datatype Option<T> = None | Some(value: T)

  /** Every generated slot name starts with this text. */
  const Prefix: string := "adSlot-"

  function DigitChar(d: nat): (c: char)
    requires d < 10
    ensures '0' <= c <= '9'
  {
    ('0' as int + d) as char
  }

  function DigitValue(c: char): (d: nat)
    requires '0' <= c <= '9'
    ensures d < 10
  {
    c as int - '0' as int
  }

  /** The decimal text of `n`, as a JavaScript template literal prints a non-negative integer. */
  function NatToString(n: nat): (s: string)
    ensures |s| >= 1
    ensures forall i :: 0 <= i < |s| ==> '0' <= s[i] <= '9'
    ensures s[0] == '0' <==> n == 0
    ensures |s| == 1 || s[0] != '0'
  {
    if n < 10 then [DigitChar(n)] else NatToString(n / 10) + [DigitChar(n % 10)]
  }

  /** Reads a non-empty run of decimal digits; anything else is None. */
  function ParseNat(s: string): (r: Option<nat>)
    ensures r.Some? <==> |s| >= 1 && forall i :: 0 <= i < |s| ==> '0' <= s[i] <= '9'
  {
    if |s| == 0 || !('0' <= s[|s| - 1] <= '9') then None
    else if |s| == 1 then Some(DigitValue(s[0]))
    else match ParseNat(s[..|s| - 1])
      case None => None
      case Some(high) => Some(high * 10 + DigitValue(s[|s| - 1]))
  }

  /** The name produced for counter value `n`. */
  function SlotIdName(n: nat): (s: string)
    ensures |s| > |Prefix| && s[..|Prefix|] == Prefix
    ensures forall i :: |Prefix| <= i < |s| ==> '0' <= s[i] <= '9'
    ensures s[|Prefix|] == '0' ==> s == Prefix + "0"
  {
    Prefix + NatToString(n)
  }

  /** Recovers the counter value from a generated name. */
  function ParseSlotId(s: string): (r: Option<nat>)
    ensures r.Some? ==> |s| > |Prefix| && s[..|Prefix|] == Prefix
  {
    if |s| >= |Prefix| && s[..|Prefix|] == Prefix then ParseNat(s[|Prefix|..]) else None
  }

  lemma {:induction false} ParseNatToString(n: nat)
    ensures ParseNat(NatToString(n)) == Some(n)
  {
    if n >= 10 {
      var s := NatToString(n);
      assert s[..|s| - 1] == NatToString(n / 10);
      ParseNatToString(n / 10);
      assert DigitValue(DigitChar(n % 10)) == n % 10;
    }
  }

  /** Parsing a generated name gives back the counter value it was made from. */
  lemma SlotIdRoundTrip(n: nat)
    ensures ParseSlotId(SlotIdName(n)) == Some(n)
  {
    var s := SlotIdName(n);
    assert s[..|Prefix|] == Prefix;
    assert s[|Prefix|..] == NatToString(n);
    ParseNatToString(n);
  }

  /** Two counter values give the same name exactly when they are equal. */
  lemma SlotIdInjective(a: nat, b: nat)
    ensures SlotIdName(a) == SlotIdName(b) <==> a == b
  {
    if SlotIdName(a) == SlotIdName(b) {
      SlotIdRoundTrip(a);
      SlotIdRoundTrip(b);
    }
  }

  /** The names handed out by `n` successive generations starting at counter value `start`. */
  function Allocated(start: nat, n: nat): (ids: seq<string>)
    ensures |ids| == n
  {
    seq(n, i requires 0 <= i => SlotIdName(start + i))
  }

  /**
   * Names from successive generations are pairwise distinct, and the
   * numbers they carry strictly increase in generation order.
   */
  lemma AllocatedDistinct(start: nat, n: nat, i: nat, j: nat)
    requires i < j < n
    ensures Allocated(start, n)[i] != Allocated(start, n)[j]
    ensures ParseSlotId(Allocated(start, n)[i]) == Some(start + i)
    ensures ParseSlotId(Allocated(start, n)[j]) == Some(start + j)
  {
    SlotIdInjective(start + i, start + j);
    SlotIdRoundTrip(start + i);
    SlotIdRoundTrip(start + j);
  }

  /** The first two names a fresh counter hands out. */
  lemma FirstNames()
    ensures SlotIdName(0) == "adSlot-0" && SlotIdName(1) == "adSlot-1"
  {
    assert NatToString(0) == "0" && NatToString(1) == "1";
  }

  /** The module-level `dynamicAdCount`, shared by every slot of the page. */
  class SlotCounter {
    var count: nat

    constructor ()
      ensures count == 0
    {
      count := 0;
    }

    /** `dynamicAdCount++` inside the template literal: read, then increment. */
    method Next() returns (id: string)
      modifies this
      ensures id == SlotIdName(old(count))
      ensures count == old(count) + 1
      ensures ParseSlotId(id) == Some(old(count))
    {
      id := SlotIdName(count);
      SlotIdRoundTrip(count);
      count := count + 1;
    }
  }

  /** `n` slots named one after the other: each takes the next name from the shared counter. */
  method AllocateN(c: SlotCounter, n: nat) returns (ids: seq<string>)
    modifies c
    ensures ids == Allocated(old(c.count), n)
    ensures c.count == old(c.count) + n
  {
    ghost var start := c.count;
    ids := [];
    while |ids| < n
      invariant |ids| <= n
      invariant c.count == start + |ids|
      invariant ids == Allocated(start, |ids|)
    {
      var id := c.Next();
      ids := ids + [id];
    }
  }
}

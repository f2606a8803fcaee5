/** The loop of the generated decoders that lists missing required fields from a bit set. */
module RequiredFields {
  /** 1 << i, for an eight-bit word. */
  function Power(i: nat): bv8
    requires i < 8
  {
    if i == 0 then 0x01 else if i == 1 then 0x02 else if i == 2 then 0x04 else if i == 3 then 0x08
    else if i == 4 then 0x10 else if i == 5 then 0x20 else if i == 6 then 0x40 else 0x80
  }

  predicate Has(b: bv8, i: nat)
    requires i < 8
  {
    b & Power(i) != 0
  }

  /** b &^= 1 << i */
  function Clear(b: bv8, i: nat): bv8
    requires i < 8
  {
    b & !Power(i)
  }

  /** The set bits from index `from` on, ascending. */
  function BitsFrom(b: bv8, from: nat): seq<nat>
    requires from <= 8
    decreases 8 - from, b
  {
    if from == 8 then []
    else (if Has(b, from) then [from] else []) + BitsFrom(b, from + 1)
  }

  function SetBits(b: bv8): seq<nat> {
    BitsFrom(b, 0)
  }

  /** bits.OnesCount8 */
  function OnesFrom(b: bv8, from: nat): nat
    requires from <= 8
    decreases 8 - from, b
  {
    if from == 8 then 0 else (if Has(b, from) then 1 else 0) + OnesFrom(b, from + 1)
  }

  function OnesCount8(b: bv8): nat {
    OnesFrom(b, 0)
  }

  /** bits.TrailingZeros8, which is 8 for zero */
  function ZerosFrom(b: bv8, from: nat): (n: nat)
    requires from <= 8
    ensures from <= n <= 8
    decreases 8 - from, b
  {
    if from == 8 || Has(b, from) then from else ZerosFrom(b, from + 1)
  }

  function TrailingZeros8(b: bv8): nat {
    ZerosFrom(b, 0)
  }

  lemma ClearBit(b: bv8, i: nat, j: nat)
    requires i < 8 && j < 8
    ensures Has(Clear(b, i), j) <==> i != j && Has(b, j)
  {
  }

  lemma {:induction false} OnesCountsBits(b: bv8, from: nat)
    requires from <= 8
    ensures OnesFrom(b, from) == |BitsFrom(b, from)|
    decreases 8 - from
  {
    if from < 8 {
      OnesCountsBits(b, from + 1);
    }
  }

  lemma {:induction false} BitsFromSpec(b: bv8, from: nat)
    requires from <= 8
    ensures forall i :: i in BitsFrom(b, from) <==> from <= i < 8 && Has(b, i)
    ensures forall j, k :: 0 <= j < k < |BitsFrom(b, from)| ==> BitsFrom(b, from)[j] < BitsFrom(b, from)[k]
    decreases 8 - from
  {
    if from < 8 {
      BitsFromSpec(b, from + 1);
      var rest := BitsFrom(b, from + 1);
      forall k | 0 <= k < |rest| ensures from < rest[k] {
        assert rest[k] in rest;
      }
    }
  }

  lemma {:induction false} BitsAfterClear(b: bv8, i: nat, from: nat)
    requires i < from <= 8
    ensures BitsFrom(Clear(b, i), from) == BitsFrom(b, from)
    decreases 8 - from
  {
    if from < 8 {
      ClearBit(b, i, from);
      BitsAfterClear(b, i, from + 1);
    }
  }

  lemma LowestBitHere(b: bv8, from: nat)
    requires from < 8 && Has(b, from)
    ensures BitsFrom(Clear(b, from), from) == BitsFrom(b, from)[1..]
  {
    ClearBit(b, from, from);
    BitsAfterClear(b, from, from + 1);
    assert BitsFrom(b, from) == [from] + BitsFrom(b, from + 1);
    assert BitsFrom(Clear(b, from), from) == BitsFrom(Clear(b, from), from + 1);
  }

  lemma LowestBitLater(b: bv8, i: nat, from: nat)
    requires from < i < 8 && !Has(b, from)
    ensures BitsFrom(Clear(b, i), from) == BitsFrom(Clear(b, i), from + 1)
    ensures BitsFrom(b, from) == BitsFrom(b, from + 1)
  {
  }

  /** One round of the loop: the lowest set bit leads the list, and clearing it leaves the rest. */
  lemma {:induction false} LowestBit(b: bv8, from: nat)
    requires from <= 8 && BitsFrom(b, from) != []
    ensures ZerosFrom(b, from) < 8
    ensures BitsFrom(b, from)[0] == ZerosFrom(b, from)
    ensures BitsFrom(Clear(b, ZerosFrom(b, from)), from) == BitsFrom(b, from)[1..]
    decreases 8 - from
  {
    if Has(b, from) {
      LowestBitHere(b, from);
    } else {
      LowestBit(b, from + 1);
      LowestBitLater(b, ZerosFrom(b, from + 1), from);
    }
  }

  lemma NoBitsIsZero(b: bv8)
    requires SetBits(b) == []
    ensures b == 0
  {
    BitsFromSpec(b, 0);
    forall i | 0 <= i < 8 ensures !Has(b, i) {
      assert i !in SetBits(b);
    }
    assert !Has(b, 0) && !Has(b, 1) && !Has(b, 2) && !Has(b, 3) && !Has(b, 4) && !Has(b, 5) && !Has(b, 6) && !Has(b, 7);
    assert b & 0x01 == 0 && b & 0x02 == 0 && b & 0x04 == 0 && b & 0x08 == 0;
    assert b & 0x10 == 0 && b & 0x20 == 0 && b & 0x40 == 0 && b & 0x80 == 0;
  }

  function Lacking(bitset: bv8, mask: bv8): bv8 {
    (bitset & mask) ^ mask
  }

  /** The bits of the mask that the bit set lacks, for one word. */
  function MissingBits(bitset: bv8, mask: bv8): seq<nat> {
    SetBits(Lacking(bitset, mask))
  }

  /** The digit of a word at position `i`. */
  predicate Digit(b: bv8, i: nat)
    requires i < 8
  {
    (b >> i) & 0x01 == 0x01
  }

  lemma HasIsDigit(b: bv8, i: nat)
    requires i < 8
    ensures Has(b, i) <==> Digit(b, i)
  {
    if i == 0 {
    } else if i == 1 {
    } else if i == 2 {
    } else if i == 3 {
    } else if i == 4 {
    } else if i == 5 {
    } else if i == 6 {
    }
  }

  /** Exactly the bits of the mask that are not in the bit set, each once, ascending. */
  lemma MissingBitsSpec(bitset: bv8, mask: bv8)
    ensures forall i :: i in MissingBits(bitset, mask) <==> 0 <= i < 8 && Has(mask, i) && !Has(bitset, i)
    ensures forall i :: i in MissingBits(bitset, mask) <==> 0 <= i < 8 && Digit(mask, i) && !Digit(bitset, i)
    ensures forall j, k :: 0 <= j < k < |MissingBits(bitset, mask)| ==>
      MissingBits(bitset, mask)[j] < MissingBits(bitset, mask)[k]
  {
    var word := Lacking(bitset, mask);
    BitsFromSpec(word, 0);
    forall i | 0 <= i < 8 ensures Has(word, i) <==> Has(mask, i) && !Has(bitset, i)
      ensures (Has(mask, i) <==> Digit(mask, i)) && (Has(bitset, i) <==> Digit(bitset, i)) {
      assert Lacking(bitset, mask) == mask & !bitset;
      HasIsDigit(mask, i);
      HasIsDigit(bitset, i);
      MaskedBit(bitset, mask, i);
    }
  }

  lemma MaskedBit(bitset: bv8, mask: bv8, i: nat)
    requires i < 8
    ensures Has(mask & !bitset, i) <==> Has(mask, i) && !Has(bitset, i)
  {
  }

  /** The name of a field by its index; an index past the table is written as a number. */
  datatype FieldName = Named(name: string) | Numbered(index: nat)

  function NameAt(names: seq<string>, index: nat): FieldName {
    if index < |names| then Named(names[index]) else Numbered(index)
  }

  /** The failures of one word, by name. */
  function WordFailures(word: nat, missing: seq<nat>, names: seq<string>): seq<FieldName> {
    if missing == [] then []
    else WordFailures(word, missing[..|missing| - 1], names) + [NameAt(names, word * 8 + missing[|missing| - 1])]
  }

  /** All failures of the first `n` words. */
  function FailuresUpTo(bitsets: seq<bv8>, masks: seq<bv8>, names: seq<string>, n: nat): seq<FieldName>
    requires n <= |masks| == |bitsets|
  {
    if n == 0 then []
    else
      FailuresUpTo(bitsets, masks, names, n - 1)
        + WordFailures(n - 1, MissingBits(bitsets[n - 1], masks[n - 1]), names)
  }

  lemma WordFailuresNext(word: nat, missing: seq<nat>, n: nat, names: seq<string>)
    requires n < |missing|
    ensures WordFailures(word, missing[..n + 1], names)
      == WordFailures(word, missing[..n], names) + [NameAt(names, word * 8 + missing[n])]
  {
    assert missing[..n + 1][..n] == missing[..n];
  }

  /** The inner loop: it ends with no bit left, having named every missing field of the word. */
  method NameMissing(word: nat, initial: bv8, names: seq<string>) returns (failures: seq<FieldName>, result: bv8)
    ensures failures == WordFailures(word, SetBits(initial), names)
    ensures result == 0
  {
    failures, result := [], initial;
    ghost var missing := SetBits(initial);
    OnesCountsBits(initial, 0);
    var missed := OnesCount8(initial);
    for bitN := 0 to missed
      invariant |missing| == missed
      invariant SetBits(result) == missing[bitN..]
      invariant failures == WordFailures(word, missing[..bitN], names)
    {
      LowestBit(result, 0);
      var bitIdx := TrailingZeros8(result);
      var fieldIdx := word * 8 + bitIdx;
      var name := if fieldIdx < |names| then Named(names[fieldIdx]) else Numbered(fieldIdx);
      assert missing[bitN..][0] == missing[bitN] && missing[bitN..][1..] == missing[bitN + 1..];
      WordFailuresNext(word, missing, bitN, names);
      failures := failures + [name];
      result := Clear(result, bitIdx);
    }
    assert missing[..missed] == missing;
    NoBitsIsZero(result);
  }

  method MissingFields(bitsets: seq<bv8>, masks: seq<bv8>, names: seq<string>) returns (failures: seq<FieldName>)
    requires |bitsets| == |masks|
    ensures failures == FailuresUpTo(bitsets, masks, names, |masks|)
  {
    failures := [];
    for i := 0 to |masks|
      invariant failures == FailuresUpTo(bitsets, masks, names, i)
    {
      var named := WordMissing(i, bitsets[i], masks[i], names);
      failures := failures + named;
    }
  }

  /** One round of the outer loop: a word with nothing missing is skipped. */
  method WordMissing(word: nat, bitset: bv8, mask: bv8, names: seq<string>) returns (failures: seq<FieldName>)
    ensures failures == WordFailures(word, MissingBits(bitset, mask), names)
  {
    var result := Lacking(bitset, mask);
    if result == 0 {
      NoBitsOfZero(0);
      return [];
    }
    var rest;
    failures, rest := NameMissing(word, result, names);
  }

  lemma {:induction false} NoBitsOfZero(from: nat)
    requires from <= 8
    ensures BitsFrom(0, from) == []
    decreases 8 - from
  {
    if from < 8 {
      NoBitsOfZero(from + 1);
    }
  }

  // ----- What the failures are -----

  lemma {:induction false} WordFailuresAt(word: nat, missing: seq<nat>, names: seq<string>)
    ensures |WordFailures(word, missing, names)| == |missing|
    ensures forall k :: 0 <= k < |missing| ==>
      WordFailures(word, missing, names)[k] == NameAt(names, word * 8 + missing[k])
  {
    if missing != [] {
      WordFailuresAt(word, missing[..|missing| - 1], names);
    }
  }

  /** When the masks stay inside the name table, no failure falls back to a number. */
  lemma {:induction false} AllFailuresNamed(bitsets: seq<bv8>, masks: seq<bv8>, names: seq<string>, n: nat)
    requires n <= |masks| == |bitsets|
    requires forall w, i :: 0 <= w < n && 0 <= i < 8 && Has(masks[w], i) ==> w * 8 + i < |names|
    ensures forall f :: f in FailuresUpTo(bitsets, masks, names, n) ==> f.Named?
  {
    if n > 0 {
      AllFailuresNamed(bitsets, masks, names, n - 1);
      var missing := MissingBits(bitsets[n - 1], masks[n - 1]);
      MissingBitsSpec(bitsets[n - 1], masks[n - 1]);
      WordFailuresAt(n - 1, missing, names);
      var failures := WordFailures(n - 1, missing, names);
      forall f | f in failures ensures f.Named? {
        var k :| 0 <= k < |failures| && failures[k] == f;
        assert missing[k] in missing;
        assert Has(masks[n - 1], missing[k]);
      }
    }
  }
}

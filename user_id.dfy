/** The browser's user identifier: a version-4 UUID in the layout of RFC 4122
    (section 4.4, random UUIDs), and the rule that replaces a missing or
    legacy identifier by a fresh one on page load. The random source is a
    parameter: the sequence of nibbles the generator draws, one per slot. */
module UserId {
  import opened Common

  /** The layout the generator fills: each 'x' becomes a random hex digit,
      'y' a digit carrying the RFC 4122 variant bits (section 4.1.1), and the
      fixed '4' is the version nibble (section 4.1.3). */
  const Template: string := "xxxxxxxx-xxxx-4xxx-yxxx-xxxxxxxxxxxx"

  /** Digits of `toString(16)`: lower case. */
  const HexDigits: string := "0123456789abcdef"

  /** Hex digits whose two high bits are 10, the variant of RFC 4122. */
  const VariantDigits: string := "89ab"

  /** Identifiers of the old format start with this. */
  const LegacyPrefix: string := "user_"

  /** One value of `Math.random() * 16 | 0`. */
  predicate IsNibble(r: int) {
    0 <= r < 16
  }

  predicate AllNibbles(rs: seq<int>) {
    forall k :: 0 <= k < |rs| ==> IsNibble(rs[k])
  }

  /** The characters the replacement callback is called on. */
  predicate IsSlot(c: char) {
    c == 'x' || c == 'y'
  }

  /** How many random nibbles filling `t` draws. */
  function Slots(t: string): nat {
    if t == [] then 0 else (if IsSlot(t[0]) then 1 else 0) + Slots(t[1..])
  }

  /** `v.toString(16)` for one nibble: a lower-case hex digit, one with the
      variant bits exactly when the value is 8 to 11. */
  function HexDigit(v: int): (c: char)
    requires IsNibble(v)
    ensures c in HexDigits
    ensures c in VariantDigits <==> 8 <= v < 12
  {
    HexDigits[v]
  }

  /** `r & 0x3 | 0x8`: keep the two low bits, force the high bits to 10. */
  function VariantNibble(r: int): (v: int)
    requires IsNibble(r)
    ensures 8 <= v < 12 && v % 4 == r % 4
  {
    (((r as bv8) & 0x3) | 0x8) as int
  }

  /** The digit the callback returns for slot character `slot` and draw `r`. */
  function SlotDigit(slot: char, r: int): (c: char)
    requires IsSlot(slot) && IsNibble(r)
    ensures slot == 'x' ==> c in HexDigits
    ensures slot == 'y' ==> c in VariantDigits
  {
    if slot == 'x' then HexDigit(r) else HexDigit(VariantNibble(r))
  }

  /** `t.replace(/[xy]/g, callback)`: every slot, left to right, replaced by
      the digit for the next draw; every other character kept. */
  function Fill(t: string, rs: seq<int>): (s: string)
    requires |rs| == Slots(t) && AllNibbles(rs)
    ensures |s| == |t|
  {
    if t == [] then []
    else if IsSlot(t[0]) then [SlotDigit(t[0], rs[0])] + Fill(t[1..], rs[1..])
    else [t[0]] + Fill(t[1..], rs)
  }

  /** `s` is one of the strings filling `t` can give. */
  predicate Conforms(t: string, s: string) {
    && |s| == |t|
    && forall i :: 0 <= i < |t| ==>
         && (t[i] == 'x' ==> s[i] in HexDigits)
         && (t[i] == 'y' ==> s[i] in VariantDigits)
         && (!IsSlot(t[i]) ==> s[i] == t[i])
  }

  /** The value of a lower-case hex digit. */
  function HexValue(c: char): (v: int)
    requires c in HexDigits
    ensures IsNibble(v) && HexDigit(v) == c
  {
    var k :| 0 <= k < |HexDigits| && HexDigits[k] == c;
    k
  }

  /** The draws that a conforming string was made from, read back slot by slot. */
  function Nibbles(t: string, s: string): (rs: seq<int>)
    requires Conforms(t, s)
    ensures |rs| == Slots(t) && AllNibbles(rs)
  {
    if t == [] then []
    else
      assert Conforms(t[1..], s[1..]) by {
        forall i | 0 <= i < |t| - 1 ensures t[1..][i] == t[i + 1] && s[1..][i] == s[i + 1] { }
      }
      (if IsSlot(t[0]) then [HexValue(s[0])] else []) + Nibbles(t[1..], s[1..])
  }

  /** Whatever is drawn, the result has the template's layout. */
  lemma {:induction false} FillConforms(t: string, rs: seq<int>)
    requires |rs| == Slots(t) && AllNibbles(rs)
    ensures Conforms(t, Fill(t, rs))
  {
    if t != [] {
      var s := Fill(t, rs);
      var rest := if IsSlot(t[0]) then rs[1..] else rs;
      FillConforms(t[1..], rest);
      if t[0] == 'y' {
        var v := VariantNibble(rs[0]);
        assert HexDigits[v] in VariantDigits by {
          assert v == 8 || v == 9 || v == 10 || v == 11;
        }
      }
      forall i | 0 <= i < |t|
        ensures && (t[i] == 'x' ==> s[i] in HexDigits)
                && (t[i] == 'y' ==> s[i] in VariantDigits)
                && (!IsSlot(t[i]) ==> s[i] == t[i])
      {
        if i > 0 {
          assert s[i] == Fill(t[1..], rest)[i - 1] && t[i] == t[1..][i - 1];
        }
      }
    }
  }

  /** A digit with the variant bits set passes `r & 0x3 | 0x8` unchanged. */
  lemma VariantFixed(v: int)
    requires 8 <= v < 12
    ensures VariantNibble(v) == v
  {
  }

  /** Every string of the template's layout is produced by some draw: the
      generator reaches the whole space of such identifiers. */
  lemma {:induction false} FillNibbles(t: string, s: string)
    requires Conforms(t, s)
    ensures Fill(t, Nibbles(t, s)) == s
  {
    if t != [] {
      assert Conforms(t[1..], s[1..]) by {
        forall i | 0 <= i < |t| - 1 ensures t[1..][i] == t[i + 1] && s[1..][i] == s[i + 1] { }
      }
      FillNibbles(t[1..], s[1..]);
      var rs := Nibbles(t, s);
      assert t[0] == 'x' ==> s[0] in HexDigits;
      assert t[0] == 'y' ==> s[0] in VariantDigits;
      if IsSlot(t[0]) {
        assert rs == [HexValue(s[0])] + Nibbles(t[1..], s[1..]);
        var v := HexValue(s[0]);
        if t[0] == 'y' {
          assert 8 <= v < 12;
          VariantFixed(v);
        }
        assert SlotDigit(t[0], rs[0]) == s[0];
      } else {
        assert rs == Nibbles(t[1..], s[1..]);
        assert s[0] == t[0];
      }
      assert s == [s[0]] + s[1..];
    }
  }

  /** The RFC 4122 version-4 layout, position by position: 36 characters,
      dashes at 8, 13, 18 and 23, the version digit 4 at 14, a variant digit
      at 19, and a lower-case hex digit everywhere else. */
  predicate IsUuidV4(s: string) {
    && |s| == 36
    && s[8] == '-' && s[13] == '-' && s[18] == '-' && s[23] == '-'
    && s[14] == '4'
    && s[19] in VariantDigits
    && forall i :: 0 <= i < 36 && i != 8 && i != 13 && i != 14 && i != 18 && i != 19 && i != 23 ==>
         s[i] in HexDigits
  }

  /** The template describes exactly the version-4 layout. */
  lemma TemplateIsUuidV4Layout(s: string)
    ensures Conforms(Template, s) <==> IsUuidV4(s)
  {
    assert |Template| == 36;
    assert forall i :: 0 <= i < 36 && i != 8 && i != 13 && i != 14 && i != 18 && i != 19 && i != 23 ==>
      Template[i] == 'x';
  }

  /** Filling the template draws 31 nibbles: 32 hex digits minus the fixed version digit. */
  lemma TemplateSlots()
    ensures Slots(Template) == 31
  {
    TemplateGroups();
    GroupSlots();
  }

  lemma GroupSlots()
    ensures Slots("xxxxxxxx" + "-xxxx" + "-4xxx" + "-yxxx" + "-xxxxxxxxxxxx") == 31
  {
    var a, b, c, d, e := "xxxxxxxx", "-xxxx", "-4xxx", "-yxxx", "-xxxxxxxxxxxx";
    assert Slots(a) == 8;
    assert Slots(b) == 4;
    assert Slots(c) == 3;
    assert Slots(d) == 4;
    assert Slots(e) == 12;
    SlotsConcat(a, b);
    SlotsConcat(a + b, c);
    SlotsConcat(a + b + c, d);
    SlotsConcat(a + b + c + d, e);
  }

  /** The template's five dash-separated groups. */
  lemma TemplateGroups()
    ensures Template == "xxxxxxxx" + "-xxxx" + "-4xxx" + "-yxxx" + "-xxxxxxxxxxxx"
  {
  }

  lemma {:induction false} SlotsConcat(a: string, b: string)
    ensures Slots(a + b) == Slots(a) + Slots(b)
  {
    if a == [] {
      assert a + b == b;
    } else {
      assert (a + b)[0] == a[0] && (a + b)[1..] == a[1..] + b;
      SlotsConcat(a[1..], b);
    }
  }

  /** A version-4 identifier starts with a hex digit, so never with "user_". */
  lemma UuidIsNotLegacy(s: string)
    requires IsUuidV4(s)
    ensures !StartsWith(s, LegacyPrefix)
  {
    assert s[0] in HexDigits;
    assert LegacyPrefix[0] !in HexDigits;
  }

  /** `generateUUID()` for the given draws. */
  function GenerateUuid(rs: seq<int>): (id: string)
    requires |rs| == 31 && AllNibbles(rs)
    ensures IsUuidV4(id)
    ensures !StartsWith(id, LegacyPrefix)
  {
    TemplateSlots();
    var id := Fill(Template, rs);
    FillConforms(Template, rs);
    TemplateIsUuidV4Layout(id);
    UuidIsNotLegacy(id);
    id
  }

  /** `s.startsWith(prefix)`: the leading characters of `s` are those of `prefix`. */
  predicate StartsWith(s: string, prefix: string)
    ensures StartsWith(s, prefix) <==> |prefix| <= |s| && forall i :: 0 <= i < |prefix| ==> s[i] == prefix[i]
  {
    |prefix| <= |s| && s[..|prefix|] == prefix
  }

  /** The stored id is replaced when it is missing, empty (falsy) or of the
      legacy format. */
  predicate NeedsNewId(stored: Option<string>)
    ensures stored.Some? && stored.value != [] && stored.value[0] != 'u' ==> !NeedsNewId(stored)
  {
    stored.None? || stored.value == "" || StartsWith(stored.value, LegacyPrefix)
  }

  /** A stored id of the version-4 layout is never replaced. */
  lemma UuidIsNeverReplaced(s: string)
    requires IsUuidV4(s)
    ensures !NeedsNewId(Some(s))
  {
    UuidIsNotLegacy(s);
  }

  /** `USER_ID` after the check on page load, given the stored value and the
      draws the generator would use. */
  function ResolveUserId(stored: Option<string>, rs: seq<int>): (id: string)
    requires |rs| == 31 && AllNibbles(rs)
    ensures id != [] && !StartsWith(id, LegacyPrefix)
    ensures !NeedsNewId(stored) ==> id == stored.value
    ensures NeedsNewId(stored) ==> IsUuidV4(id)
  {
    if NeedsNewId(stored) then GenerateUuid(rs) else stored.value
  }

  /** Once resolved and stored, the id survives every later page load. */
  lemma ResolveIsStable(stored: Option<string>, rs: seq<int>, later: seq<int>)
    requires |rs| == 31 && AllNibbles(rs)
    requires |later| == 31 && AllNibbles(later)
    ensures ResolveUserId(Some(ResolveUserId(stored, rs)), later) == ResolveUserId(stored, rs)
  {
  }
}

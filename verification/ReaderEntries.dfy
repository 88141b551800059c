/**
 How a worker obtains its entries in the readers bitmaps: `assign_reader_bitmap_entry`, as it is
 and as it would be if its loop updated the entries in place, and what registering a reader with
 such an entry does.
 */
module ReaderEntries {
  const ALL: bv64 := 0xFFFF_FFFF_FFFF_FFFF

  // One entry per coroutine of a worker: its bit, and the word of the bitmap that holds it.
  datatype Info = Info(entry: bv64, index: nat)

  // The lowest bits of `w` are set, and no others.
  predicate Prefix(w: bv64) { w & (w + 1) == 0 }

  predicate SingleBit(e: bv64) { e != 0 && e & (e - 1) == 0 }

  predicate Within(e: bv64, w: bv64) { e & w == e }

  predicate Apart(e: bv64, f: bv64) { e & f == 0 }

  // The bit claimed in word `w`, and the word with it.
  function NextBit(w: bv64): bv64 { w + 1 }

  function Claimed(w: bv64): bv64 { w | NextBit(w) }

  // Claiming the next bit of a word: it is a bit of its own.
  lemma Claims(w: bv64, e: bv64)
    requires w != ALL && Prefix(w)
    ensures SingleBit(NextBit(w)) && NextBit(w) != 0 && Prefix(Claimed(w)) && Within(NextBit(w), Claimed(w))
    ensures Within(e, w) ==> Apart(e, NextBit(w)) && Within(e, Claimed(w))
  {
  }

  ghost predicate Prefixes(claimed: seq<bv64>) {
    forall i :: 0 <= i < |claimed| ==> Prefix(claimed[i])
  }

  lemma ClaimKeepsPrefixes(claimed: seq<bv64>, i: nat)
    requires Prefixes(claimed) && i < |claimed| && claimed[i] != ALL
    ensures Prefix(claimed[i]) && Prefixes(claimed[i := Claimed(claimed[i])])
  {
    Claims(claimed[i], 0);
    hide Prefix, Claimed, NextBit, SingleBit, Within, Apart;
  }

  // Claim a bit in the first word that has one left.
  method ClaimBit(claimed: array<bv64>) returns (found: bool, info: Info)
    requires Prefixes(claimed[..])
    modifies claimed
    ensures found <==> exists i :: 0 <= i < claimed.Length && old(claimed[i]) != ALL
    ensures found ==>
              && info.index < claimed.Length && old(claimed[info.index]) != ALL
              && info.entry == NextBit(old(claimed[info.index]))
              && claimed[..] == old(claimed[..])[info.index := Claimed(old(claimed[info.index]))]
    ensures !found ==> claimed[..] == old(claimed[..])
  {
    var i := 0;
    found, info := false, Info(0, 0);
    while i < claimed.Length
      invariant 0 <= i <= claimed.Length && claimed[..] == old(claimed[..])
      invariant forall j :: 0 <= j < i ==> claimed[j] == ALL
    {
      var bits := claimed[i];
      if bits != ALL {
        found, info := true, Info(NextBit(bits), i);
        claimed[i] := Claimed(bits);
        return;
      }
      i := i + 1;
    }
  }

  // The loop as it is: the variable it assigns to is a copy of each element.
  method AssignEntries(infos: array<Info>, claimed: array<bv64>)
    requires (infos as object) != (claimed as object)
    requires Prefixes(claimed[..])
    modifies claimed
    ensures infos[..] == old(infos[..])
    ensures Prefixes(claimed[..])
  {
    hide Prefixes, Prefix, Claimed, NextBit, SingleBit, Within, Apart;
    if infos.Length > 0 && infos[0].entry != 0 { return; }
    for k := 0 to infos.Length
      invariant infos[..] == old(infos[..]) && Prefixes(claimed[..])
    {
      ghost var before := claimed[..];
      var info := infos[k];
      var found, mine := ClaimBit(claimed);
      if found {
        info := mine;
        ClaimKeepsPrefixes(before, mine.index);
      }
    }
  }

  // The entries of one worker: bits of their own, all of them claimed.
  ghost predicate Own(infos: seq<Info>, claimed: seq<bv64>) {
    && (forall k :: 0 <= k < |infos| ==> OwnBit(infos[k], claimed))
    && (forall j, k :: 0 <= j < k < |infos| ==> Disjoint(infos[j], infos[k]))
  }

  ghost predicate OwnBit(a: Info, claimed: seq<bv64>) {
    a.entry != 0 ==> SingleBit(a.entry) && a.index < |claimed| && Within(a.entry, claimed[a.index])
  }

  ghost predicate Disjoint(a: Info, b: Info) {
    a.entry != 0 && b.entry != 0 && a.index == b.index ==> Apart(a.entry, b.entry)
  }

  // What claiming one more bit of a word means for an entry.
  lemma BitStays(a: Info, claimed: seq<bv64>, mine: Info)
    requires OwnBit(a, claimed) && mine.index < |claimed| && Prefix(claimed[mine.index]) && claimed[mine.index] != ALL
    requires mine.entry == NextBit(claimed[mine.index])
    ensures var later := claimed[mine.index := Claimed(claimed[mine.index])];
            OwnBit(a, later) && OwnBit(mine, later) && Disjoint(a, mine) && Disjoint(mine, a)
  {
    Claims(claimed[mine.index], a.entry);
    Symmetric(a.entry, mine.entry);
    hide Prefix, Claimed, NextBit, SingleBit, Within, Apart;
  }

  lemma Symmetric(e: bv64, f: bv64)
    ensures Apart(e, f) == Apart(f, e)
  {
  }

  lemma OwnGrows(infos: seq<Info>, claimed: seq<bv64>, mine: Info)
    requires Own(infos, claimed) && mine.index < |claimed| && Prefix(claimed[mine.index]) && claimed[mine.index] != ALL
    requires mine.entry == NextBit(claimed[mine.index])
    ensures Own(infos + [mine], claimed[mine.index := Claimed(claimed[mine.index])])
  {
    hide Prefix, Claimed, NextBit, SingleBit, Within, Apart, OwnBit, Disjoint;
    NoBit(claimed, Info(0, 0), Info(0, 0));
    BitStays(Info(0, 0), claimed, mine);
    forall k | 0 <= k < |infos|
      ensures OwnBit(infos[k], claimed[mine.index := Claimed(claimed[mine.index])]) && Disjoint(infos[k], mine)
    {
      BitStays(infos[k], claimed, mine);
    }
  }

  lemma NoBit(claimed: seq<bv64>, a: Info, none: Info)
    requires none.entry == 0
    ensures OwnBit(none, claimed) && Disjoint(a, none)
  {
  }

  lemma OwnSkips(infos: seq<Info>, claimed: seq<bv64>, none: Info)
    requires Own(infos, claimed) && none.entry == 0
    ensures Own(infos + [none], claimed)
  {
    hide OwnBit, Disjoint;
    NoBit(claimed, none, none);
    forall k | 0 <= k < |infos| ensures Disjoint(infos[k], none) { NoBit(claimed, infos[k], none); }
  }

  // The loop as it would be over references: every entry is a bit of its own while bits are left.
  method AssignInPlace(infos: array<Info>, claimed: array<bv64>)
    requires (infos as object) != (claimed as object)
    requires Prefixes(claimed[..])
    requires forall k :: 0 <= k < infos.Length ==> infos[k].entry == 0
    modifies infos, claimed
    ensures Own(infos[..], claimed[..])
    ensures forall k :: 0 <= k < infos.Length && infos[k].entry == 0 ==> Full(claimed[..])
  {
    for k := 0 to infos.Length
      invariant Prefixes(claimed[..])
      invariant Own(infos[..k], claimed[..])
      invariant forall j :: k <= j < infos.Length ==> infos[j].entry == 0
      invariant forall j :: 0 <= j < k && infos[j].entry == 0 ==> Full(claimed[..])
    {
      hide Prefixes, Prefix, Claimed, NextBit, SingleBit, Within, Apart, Own;
      ghost var before, done := claimed[..], infos[..k];
      var found, mine := ClaimBit(claimed);
      if found {
        ClaimKeepsPrefixes(before, mine.index);
        OwnGrows(done, before, mine);
        infos[k] := mine;
        assert infos[..k + 1] == done + [mine];
      } else {
        OwnSkips(done, claimed[..], infos[k]);
        assert infos[..k + 1] == done + [infos[k]];
      }
    }
    assert infos[..infos.Length] == infos[..];
  }

  ghost predicate Full(claimed: seq<bv64>) {
    forall i :: 0 <= i < |claimed| ==> claimed[i] == ALL
  }

  // `serial_register_reader_tx`: set the bits of the entry.
  method Register(bitmap: array<bv64>, info: Info)
    requires info.index < bitmap.Length
    modifies bitmap
    ensures bitmap[..] == old(bitmap[..])[info.index := old(bitmap[info.index]) | info.entry]
    ensures info.entry == 0 ==> bitmap[..] == old(bitmap[..])
    ensures SingleBit(info.entry) ==> bitmap[info.index] & info.entry != 0
  {
    bitmap[info.index] := bitmap[info.index] | info.entry;
  }

  // What a worker's registrations set after the loop as it is: nothing, whatever it reads.
  method RegisterAfterAssign(infos: array<Info>, claimed: array<bv64>, bitmap: array<bv64>, k: nat)
    requires Prefixes(claimed[..])
    requires forall j :: 0 <= j < infos.Length ==> infos[j] == Info(0, 0)
    requires k < infos.Length && bitmap.Length > 0 && bitmap != claimed
    requires (infos as object) != (claimed as object)
    modifies claimed, bitmap
    ensures bitmap[..] == old(bitmap[..])
  {
    AssignEntries(infos, claimed);
    assert infos[..][k] == Info(0, 0);
    Register(bitmap, infos[k]);
  }
}

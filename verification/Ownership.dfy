// What one owner a frame means for whoever reads memory: no page of one process shows in another.
module Ownership {
  import opened Layout
  import opened Spaces
  import opened Reshaping
  import opened Pages
  import opened Paging
  import opened Teardown
  import opened Merging
  import opened UserMemory

  // Under a reserved entry a walk stays in the space's own tables, or comes to the kernel's.
  lemma {:induction false} LocateOwn(w: World, s: nat, p: Path, d: nat) returns (t: nat)
    requires Inv(w) && Walkable(w, s) && s != KERNEL && IsTable(p) && Under(p, Step(Top, d)) && Reserved(d) && Look(w, s, p) != EMPTY
    ensures t == s || t == KERNEL
    ensures Node(t, p) in w.own && w.own[Node(t, p)] == Look(w, s, p).frame
  {
    if p == Step(Top, d) {
      AtRoot(w, s);
      assert Typed(w, Node(s, Top), d);
      t := if Process(Look(w, s, p).flags) then s else KERNEL;
    } else {
      assert p.up.Step?;
      var u := LocateOwn(w, s, p.up, d);
      assert Typed(w, Node(u, p.up), p.digit);
      t := if Process(Look(w, s, p).flags) then u else KERNEL;
    }
  }

  // Whose page it is that a space reads as the process's own.
  lemma PageOwner(w: World, s: nat, q: Path) returns (t: nat)
    requires Inv(w) && Walkable(w, s) && s != KERNEL && IsPage(q) && Owned(Look(w, s, q).flags)
    ensures Names(w, Node(t, q), Look(w, s, q).frame) && t in w.kind && t != KERNEL && Group(w, t) == Group(w, s)
    ensures Reserved(TopDigit(q)) || w.kind[s] == Solo ==> t == s
  {
    OwnedIsNotEmpty(EMPTY);
    assert Look(w, s, Up(q)) != EMPTY && IsTable(Up(q));
    var d4, d3, d2, d1 := DigitsOfPage(q);
    if Reserved(TopDigit(q)) {
      UnderDigits(d4, d3, d2, d1, d4, d3, d2, d1);
      UnderUp(d4, d3, d2);
      t := LocateOwn(w, s, Up(q), d4);
    } else {
      t := Locate(w, s, Up(q));
    }
    assert Typed(w, Node(t, Up(q)), q.digit);
    GroupIs(w, s, t);
  }

  lemma UnderUp(d4: nat, d3: nat, d2: nat)
    ensures Under(Step(Step(Step(Top, d4), d3), d2), Step(Top, d4))
  {
    assert Under(Step(Step(Top, d4), d3), Step(Top, d4));
  }

  lemma GroupIs(w: World, s: nat, t: nat)
    requires Inv(w) && Walkable(w, s) && (t == s || t == Group(w, s) || t == KERNEL)
    ensures t in w.kind && (t != KERNEL ==> Group(w, t) == Group(w, s))
  {
  }

  // A frame that is some process's own shows at one place only, in that process and its threads, and on a
  // stack in one of them only.
  lemma OneOwner(w: World, r: nat, s: nat, p: Path, q: Path)
    requires Inv(w) && Walkable(w, r) && Walkable(w, s) && r != KERNEL && s != KERNEL && IsPage(p) && IsPage(q)
    requires Owned(Look(w, r, p).flags) && Owned(Look(w, s, q).flags) && Look(w, r, p).frame == Look(w, s, q).frame
    ensures p == q && Group(w, r) == Group(w, s) && (Reserved(TopDigit(p)) ==> r == s)
  {
    var t := PageOwner(w, r, p);
    var u := PageOwner(w, s, q);
    hide Tables, Hangs, Kinds, Blank, Placed, Look;
    assert Node(t, p) == Node(u, q);
  }

  // And it is not free.
  lemma OwnedIsNotFree(w: World, s: nat, q: Path)
    requires Inv(w) && Walkable(w, s) && s != KERNEL && IsPage(q) && Owned(Look(w, s, q).flags)
    ensures Look(w, s, q).frame !in w.free && 0 < Look(w, s, q).frame < |w.memory|
  {
    var t := PageOwner(w, s, q);
    hide Tables, Hangs, Kinds, Blank, Injective, Look;
  }
}

/**
 The journalled move of the database roots to their new places. Every action on the disk may
 be done, raise, or never happen because the process dies just before it; an arbitrary answer
 at every action covers every crash point. A rename or a journal write is atomic.
 */
module StorageLayout {
  import opened Common

  /** A file; `sound` is what the integrity check says of a database with these bytes. */
  datatype File = File(bytes: string, sound: bool)

  datatype Tree = Tree(files: map<string, File>, folders: set<string>, redirects: set<string>)

  const EMPTY := Tree(map[], {}, {})

  /** What a path holds. A redirect stands at an old root and points at the new root of the same operation. */
  datatype Node = Absent | Plain | Dir(tree: Tree) | Redirect

  predicate IsDatabase(name: string) {
    |name| >= 3 && name[|name| - 3..] == ".db"
  }

  predicate Sound(t: Tree) {
    forall n :: n in t.files && IsDatabase(n) ==> t.files[n].sound
  }

  predicate Clean(t: Tree) {
    Sound(t) && t.redirects == {}
  }

  /** A tree that may be moved: every file whose name ends in `.db` is a sound database, and nothing is a redirect. */
  lemma CleanMeans(t: Tree, stem: string)
    ensures Clean(t) ==> t.redirects == {} && (stem + ".db" in t.files ==> t.files[stem + ".db"].sound)
    ensures t.redirects == {} && !Clean(t) ==> exists s :: s + ".db" in t.files && !t.files[s + ".db"].sound
  {
    var name := stem + ".db";
    assert name[|name| - 3..] == ".db";
    if t.redirects == {} && !Clean(t) {
      var n :| n in t.files && IsDatabase(n) && !t.files[n].sound;
      assert n[..|n| - 3] + ".db" == n;
    }
  }

  /** Names and digests of all files; a digest tells contents apart. */
  function Manifest(t: Tree): map<string, string> {
    map n | n in t.files :: t.files[n].bytes
  }

  datatype Reason = Io | NotADirectory | RefusesToMerge | Unsound | InnerRedirect | Unreadable | Unsupported | Mismatch

  /** How a piece of code ends: it goes on, raises, or the process dies in it. */
  datatype Flow = Go | Fault(why: Reason) | Crash

  datatype Phase = Moving | Moved | Redirects | Unknown
  datatype ItemStatus = Pending | ItemMoved | RolledBack
  datatype Item = Item(op: nat, status: ItemStatus, manifest: map<string, string>)
  datatype Journal = Journal(phase: Phase, items: seq<Item>, redirects: seq<nat>)
  datatype JournalFile = NoJournal | Garbled | Written(j: Journal)

  predicate Finishing(file: JournalFile) {
    file.Written? && (file.j.phase.Moved? || file.j.phase.Redirects?)
  }

  predicate Readable(file: JournalFile) {
    file == NoJournal || (file.Written? && !file.j.phase.Unknown?)
  }

  predicate Vacant(n: Node) {
    n.Absent? || n == Dir(EMPTY)
  }

  /** A real path at an old root, as the program looks for legacy roots. */
  predicate Legacy(n: Node) {
    n.Plain? || n.Dir?
  }

  /** More than a redirect or an empty directory. */
  predicate Weighty(n: Node) {
    n.Plain? || (n.Dir? && n.tree != EMPTY)
  }

  predicate Movable(n: Node) {
    n.Dir? && Clean(n.tree)
  }

  /**
   The tree of one operation is whole at exactly one of the two roots, and a redirect has a
   directory to point at. `None`: there is nothing to move but perhaps an empty directory.
   */
  ghost predicate Home(old_: Node, new_: Node, tree: Option<Tree>) {
    && (old_.Redirect? ==> new_.Dir?)
    && (tree.Some? ==>
          && tree.value != EMPTY
          && ((old_ == Dir(tree.value) && Vacant(new_))
             || (new_ == Dir(tree.value) && (old_.Absent? || old_.Redirect?))))
    && (tree.None? ==> Vacant(new_) && (old_.Dir? ==> old_.tree == EMPTY))
  }

  // How the old roots change over a piece of code.

  predicate Emptied(before: seq<Node>, after: seq<Node>) {
    |after| == |before| && forall i :: 0 <= i < |after| ==> after[i] == before[i] || after[i].Absent?
  }

  predicate RedirectsGone(before: seq<Node>, after: seq<Node>) {
    |after| == |before| && forall i :: 0 <= i < |after| ==>
      after[i] == before[i] || (after[i].Absent? && before[i].Redirect?)
  }

  predicate Lightened(before: seq<Node>, after: seq<Node>) {
    |after| == |before| && forall i :: 0 <= i < |after| ==>
      after[i] == before[i] || (after[i].Absent? && !Weighty(before[i]))
  }

  predicate Reverted(before: seq<Node>, after: seq<Node>) {
    |after| == |before| && forall i :: 0 <= i < |after| ==>
      after[i] == before[i] || (!Legacy(before[i]) && (after[i].Absent? || Movable(after[i])))
  }

  class Layout {
    var old_: seq<Node>                   // the old root of each operation
    var new_: seq<Node>                   // and its new root
    var journal: JournalFile
    var marker: bool
    var finalizer: bool
    var faults: nat
    var crashes: nat
    var sawActive: bool                   // an update transaction was seen active
    var sawIdle: bool                     // no update transaction was seen active
    ghost const trees: seq<Option<Tree>>  // what each operation has to bring over
    ghost const plains: set<nat>          // operations whose old root is not a directory
    ghost var torn: bool                  // the write of `moved` failed, and its rollback has not ended

    ghost predicate Homes()
      reads this
    {
      && |old_| == |new_| == |trees|
      && (forall i :: 0 <= i < |old_| ==> Home(old_[i], new_[i], trees[i]) && (old_[i].Plain? <==> i in plains))
    }

    /** A journal names operations of the program, and only ones that passed the checks. */
    ghost predicate JournalOk(j: Journal) {
      && (forall k :: 0 <= k < |j.items| ==>
            j.items[k].op < |trees| && (trees[j.items[k].op].Some? ==> Clean(trees[j.items[k].op].value)))
      && (forall k :: 0 <= k < |j.redirects| ==> j.redirects[k] < |trees|)
    }

    ghost predicate NoRedirect()
      reads this
    {
      forall i :: 0 <= i < |old_| ==> !old_[i].Redirect?
    }

    ghost predicate AllMoved()
      reads this
    {
      forall i :: 0 <= i < |old_| ==> !(old_[i].Dir? && old_[i].tree != EMPTY)
    }

    /** What holds whenever the process may die. */
    ghost predicate Safe()
      reads this
    {
      && Homes()
      && (journal.Written? ==> JournalOk(journal.j))
      && (Finishing(journal) ==> torn || AllMoved())
      && (torn ==> journal.Written?)
    }

    /**
     In every state where the process may die: each tree stands at one root and not at the other, and
     no redirect dangles.
     */
    lemma EachTreeOnce(i: nat)
      requires Safe() && i < |old_|
      ensures old_[i].Redirect? ==> new_[i].Dir?
      ensures trees[i].Some? ==> (old_[i] == Dir(trees[i].value)) != (new_[i] == Dir(trees[i].value))
      ensures trees[i].Some? && new_[i] != Dir(trees[i].value) ==> Vacant(new_[i])
      ensures trees[i].Some? && old_[i] != Dir(trees[i].value) ==> old_[i].Absent? || old_[i].Redirect?
    {
    }

    /** A first start: no journal, and no operation with something at both roots. */
    constructor (old_: seq<Node>, new_: seq<Node>)
      requires |old_| == |new_|
      requires forall i :: 0 <= i < |old_| ==>
                 !old_[i].Redirect? && (Vacant(new_[i]) || (old_[i].Absent? && new_[i].Dir?))
      ensures Safe() && !torn && faults == 0 && this.old_ == old_ && this.new_ == new_ && journal == NoJournal
      ensures crashes == 0 && !marker && !finalizer && !sawActive && !sawIdle
      ensures forall i :: 0 <= i < |old_| ==>
                trees[i] == if old_[i].Dir? && old_[i].tree != EMPTY then Some(old_[i].tree)
                            else if new_[i].Dir? && new_[i].tree != EMPTY then Some(new_[i].tree) else None
    {
      this.old_, this.new_ := old_, new_;
      journal, marker, finalizer := NoJournal, false, false;
      faults, crashes, sawActive, sawIdle := 0, 0, false, false;
      trees := seq(|old_|, i requires 0 <= i < |old_| =>
        if old_[i].Dir? && old_[i].tree != EMPTY then Some(old_[i].tree)
        else if new_[i].Dir? && new_[i].tree != EMPTY then Some(new_[i].tree) else None);
      plains := set i: nat | 0 <= i < |old_| && old_[i].Plain?;
      torn := false;
    }

    // ----- Single actions on the disk -----

    /** The answer of the disk to the next action. */
    method Ask() returns (f: Flow)
      modifies this`faults, this`crashes
      ensures f.Fault? ==> f.why.Io?
      ensures faults == old(faults) + (if f.Fault? then 1 else 0)
      ensures crashes == old(crashes) + (if f.Crash? then 1 else 0)
    {
      f := *;
      if f.Fault? {
        f := Fault(Io);
        faults := faults + 1;
      } else if f.Crash? {
        crashes := crashes + 1;
      }
    }

    /** `_update_transaction_active`: decided by another process, so it may differ at every look. */
    method TransactionActive() returns (active: bool)
      modifies this`sawActive, this`sawIdle
      ensures sawActive == (old(sawActive) || active) && sawIdle == (old(sawIdle) || !active)
    {
      active := *;
      sawActive := sawActive || active;
      sawIdle := sawIdle || !active;
    }

    method WriteJournal(j: Journal) returns (f: Flow)
      modifies this`journal, this`faults, this`crashes
      ensures journal == if f.Go? then Written(j) else old(journal)
      ensures f.Fault? ==> f.why.Io?
      ensures faults == old(faults) + (if f.Fault? then 1 else 0)
      ensures crashes == old(crashes) + (if f.Crash? then 1 else 0)
    {
      f := Ask();
      if f.Go? {
        journal := Written(j);
      }
    }

    method UnlinkJournal() returns (f: Flow)
      modifies this`journal, this`faults, this`crashes, this`torn
      ensures f.Go? ==> journal == NoJournal && !torn
      ensures !f.Go? ==> journal == old(journal) && torn == old(torn)
      ensures f.Fault? ==> f.why.Io?
      ensures faults == old(faults) + (if f.Fault? then 1 else 0)
      ensures crashes == old(crashes) + (if f.Crash? then 1 else 0)
    {
      f := Ask();
      if f.Go? {
        journal := NoJournal;
        torn := false;
      }
    }

    /**
     One change at the two roots of operation `i`: a rename, or a redirect, empty directory or root
     made or removed.
     */
    method Change(i: nat, o: Node, n: Node) returns (f: Flow)
      requires i < |old_| == |new_|
      modifies this`old_, this`new_, this`faults, this`crashes
      ensures f.Go? ==> old_ == old(old_)[i := o] && new_ == old(new_)[i := n]
      ensures !f.Go? ==> old_ == old(old_) && new_ == old(new_)
      ensures f.Fault? ==> f.why.Io?
      ensures faults == old(faults) + (if f.Fault? then 1 else 0)
      ensures crashes == old(crashes) + (if f.Crash? then 1 else 0)
    {
      f := Ask();
      if f.Go? {
        old_, new_ := old_[i := o], new_[i := n];
      }
    }

    // ----- The parts of `prepare` -----

    /** storage_layout.py:224-240: refuse what cannot be moved; clear empty new roots out of the way. */
    method Preflight(ops: seq<nat>) returns (f: Flow)
      requires Safe() && forall k :: 0 <= k < |ops| ==> ops[k] < |old_| && Legacy(old_[ops[k]])
      modifies this`old_, this`new_, this`faults, this`crashes
      ensures Safe() && old_ == old(old_) && faults >= old(faults) && crashes >= old(crashes)
      ensures f != Fault(RefusesToMerge) && (f.Crash? ==> crashes > old(crashes))
      ensures Emptied(old(new_), new_)
      ensures f.Go? ==> faults == old(faults) && crashes == old(crashes)
      ensures f.Go? ==> forall k :: 0 <= k < |ops| ==> old_[ops[k]].Dir? && Sound(old_[ops[k]].tree)
      ensures f.Go? ==> forall k :: 0 <= k < |ops| ==> new_[ops[k]].Absent?
      ensures forall i :: 0 <= i < |new_| && i !in ops ==> new_[i] == old(new_)[i]
      ensures f.Fault? ==>
                faults > old(faults) || exists k :: 0 <= k < |ops| && !(old_[ops[k]].Dir? && Sound(old_[ops[k]].tree))
    {
      var k := 0;
      while k < |ops|
        invariant 0 <= k <= |ops|
        invariant Safe() && old_ == old(old_) && faults == old(faults) && crashes == old(crashes)
        invariant forall m :: 0 <= m < k ==> old_[ops[m]].Dir? && Sound(old_[ops[m]].tree)
        invariant forall m :: 0 <= m < k ==> new_[ops[m]].Absent?
        invariant Emptied(old(new_), new_)
        invariant forall i :: 0 <= i < |new_| && i !in ops ==> new_[i] == old(new_)[i]
      {
        var i := ops[k];
        if !old_[i].Dir? {
          return Fault(NotADirectory);
        }
        if !new_[i].Absent? {
          assert Home(old_[i], new_[i], trees[i]);
          if new_[i] == Dir(EMPTY) {
            f := Change(i, old_[i], Absent);
            if !f.Go? {
              return;
            }
          } else {
            return Fault(RefusesToMerge);
          }
        }
        if !Sound(old_[i].tree) {
          return Fault(Unsound);
        }
        k := k + 1;
      }
      return Go;
    }

    /** storage_layout.py:167-181: the journal entries; a manifest is refused over redirects inside a tree. */
    method Describe(ops: seq<nat>) returns (f: Flow, items: seq<Item>)
      requires Safe() && forall k :: 0 <= k < |ops| ==> ops[k] < |old_| && old_[ops[k]].Dir? && Sound(old_[ops[k]].tree)
      modifies this`faults, this`crashes
      ensures Safe() && faults >= old(faults) && crashes >= old(crashes) && (f.Crash? ==> crashes > old(crashes))
      ensures f != Fault(RefusesToMerge)
      ensures f.Go? ==> faults == old(faults) && crashes == old(crashes)
      ensures f.Go? ==> JournalOk(Journal(Moving, items, [])) && |items| == |ops|
      ensures f.Go? ==> forall k :: 0 <= k < |ops| ==>
                items[k] == Item(ops[k], Pending, Manifest(old_[ops[k]].tree)) && Movable(old_[ops[k]])
      ensures f.Fault? ==> faults > old(faults) || exists k :: 0 <= k < |ops| && !Movable(old_[ops[k]])
    {
      items := [];
      for k := 0 to |ops|
        invariant faults == old(faults) && crashes == old(crashes) && |items| == k
        invariant forall m :: 0 <= m < k ==>
                    items[m] == Item(ops[m], Pending, Manifest(old_[ops[m]].tree)) && Movable(old_[ops[m]])
      {
        f := Ask();
        if !f.Go? {
          return;
        }
        var tree := old_[ops[k]].tree;
        if tree.redirects != {} {
          assert !Movable(old_[ops[k]]);
          f := Fault(InnerRedirect);
          return;
        }
        items := items + [Item(ops[k], Pending, Manifest(tree))];
      }
      f := Go;
      forall k | 0 <= k < |items|
        ensures items[k].op < |trees| && (trees[items[k].op].Some? ==> Clean(trees[items[k].op].value))
      {
        assert Home(old_[ops[k]], new_[ops[k]], trees[ops[k]]);
      }
    }

    /** One root is renamed and its contents are compared with the journal's manifest. */
    method MoveRoot(i: nat, manifest: map<string, string>) returns (f: Flow)
      requires Safe() && !Finishing(journal) && i < |old_| && old_[i].Dir? && manifest == Manifest(old_[i].tree)
      modifies this`old_, this`new_, this`faults, this`crashes
      ensures Safe() && faults >= old(faults) && crashes >= old(crashes)
      ensures (f.Crash? ==> crashes > old(crashes)) && (f.Fault? ==> faults > old(faults) && f.why.Io?)
      ensures f.Go? ==> faults == old(faults) && crashes == old(crashes) && old_ == old(old_)[i := Absent]
      ensures f.Go? ==> new_ == old(new_)[i := old(old_)[i]]
      ensures (old_ == old(old_) && new_ == old(new_))
              || (old_ == old(old_)[i := Absent] && new_ == old(new_)[i := old(old_)[i]])
    {
      assert Home(old_[i], new_[i], trees[i]);
      f := Change(i, Absent, old_[i]);
      if f.Go? {
        f := Ask();
        if f.Go? && Manifest(new_[i].tree) != manifest {
          f := Fault(Mismatch);
        }
      }
    }

    /** The directories of the entries are at their new roots and gone from the old ones; all else is as it was. */
    static ghost predicate Carried(o0: seq<Node>, n0: seq<Node>, o: seq<Node>, n: seq<Node>, items: seq<Item>) {
      && |o0| == |n0| == |o| == |n|
      && forall i :: 0 <= i < |o| ==>
           if o0[i].Dir? && exists m :: 0 <= m < |items| && items[m].op == i
           then o[i].Absent? && n[i] == o0[i] else o[i] == o0[i] && n[i] == n0[i]
    }

    /** Every root but perhaps `x` is where it was, or has been moved and is noted as moved. */
    static ghost predicate NotedBut(o0: seq<Node>, n0: seq<Node>, o: seq<Node>, n: seq<Node>, items: seq<Item>, x: int)
    {
      && |o0| == |n0| == |o| == |n|
      && (forall k :: 0 <= k < |items| && items[k].op < |o0| && items[k].status.ItemMoved? ==>
            o[items[k].op].Absent? && n[items[k].op] == o0[items[k].op] && o0[items[k].op].Dir?)
      && (forall i :: 0 <= i < |o0| && i != x ==> (o[i] == o0[i] && n[i] == n0[i]) || NotedAt(items, i))
    }

    static ghost predicate NotedAt(items: seq<Item>, i: nat) {
      exists k :: 0 <= k < |items| && items[k].op == i && items[k].status.ItemMoved?
    }

    lemma NothingNoted(items: seq<Item>)
      requires |old_| == |new_| && forall k :: 0 <= k < |items| ==> items[k].status.Pending?
      ensures NotedBut(old_, new_, old_, new_, items, -1)
    {
    }

    static lemma OneAstray(o0: seq<Node>, n0: seq<Node>, o: seq<Node>, n: seq<Node>, items: seq<Item>, i: nat)
      requires NotedBut(o0, n0, o, n, items, -1) && i < |o| && o[i].Dir?
      ensures NotedBut(o0, n0, o, n, items, i) && NotedBut(o0, n0, o[i := Absent], n[i := o[i]], items, i)
    {
    }

    static lemma NotedNext(o0: seq<Node>, n0: seq<Node>, o: seq<Node>, n: seq<Node>, items: seq<Item>, k: nat)
      requires NotedBut(o0, n0, o, n, items, -1) && k < |items| && items[k].op < |o| && o[items[k].op].Dir?
      ensures var i := items[k].op;
        NotedBut(o0, n0, o[i := Absent], n[i := o[i]], items[k := items[k].(status := ItemMoved)], -1)
    {
      var next := items[k := items[k].(status := ItemMoved)];
      assert !NotedAt(items, items[k].op);
      forall i | 0 <= i < |o0| && NotedAt(items, i) ensures NotedAt(next, i) {
        var m :| 0 <= m < |items| && items[m].op == i && items[m].status.ItemMoved?;
        assert next[m].op == i && next[m].status.ItemMoved?;
      }
      assert next[k].op == items[k].op && next[k].status.ItemMoved?;
      assert NotedAt(next, items[k].op);
    }

    /** When all roots with an entry have left their old places, every move is noted. */
    static lemma NotedIsCarried(o0: seq<Node>, n0: seq<Node>, o: seq<Node>, n: seq<Node>, items: seq<Item>,
                                noted: seq<Item>)
      requires NotedBut(o0, n0, o, n, noted, -1) && |noted| == |items|
      requires forall k :: 0 <= k < |items| ==> noted[k].op == items[k].op < |o0| && !o[items[k].op].Dir?
      ensures Carried(o0, n0, o, n, items)
    {
      forall i | 0 <= i < |o0|
        ensures if o0[i].Dir? && exists m :: 0 <= m < |items| && items[m].op == i
                then o[i].Absent? && n[i] == o0[i] else o[i] == o0[i] && n[i] == n0[i]
      {
        if NotedAt(noted, i) {
          var k :| 0 <= k < |noted| && noted[k].op == i && noted[k].status.ItemMoved?;
          assert items[k].op == i;
        }
      }
    }

    /**
     `_move_operations`: every root that is still at its old place is moved, and the journal notes it.
     Wherever it stops, the journal on the disk notes all moves but perhaps one.
     */
    method Move(j0: Journal) returns (f: Flow, j: Journal)
      requires Safe() && journal == Written(j0)
      requires JournalOk(j0) && j0.phase.Moving? && !torn
      requires forall k :: 0 <= k < |j0.items| ==>
                 var root := old_[j0.items[k].op];
                 (root.Dir? ==> j0.items[k].manifest == Manifest(root.tree)) && !root.Plain?
                   && j0.items[k].status.Pending?
      modifies this`old_, this`new_, this`journal, this`faults, this`crashes
      ensures Safe() && !Finishing(journal) && journal.Written? && Readable(journal)
      ensures faults >= old(faults) && crashes >= old(crashes)
      ensures (f.Crash? ==> crashes > old(crashes)) && (f.Fault? ==> faults > old(faults) && f.why.Io?)
      ensures JournalOk(j) && j.phase.Moving?
      ensures Emptied(old(old_), old_)
      ensures f.Go? ==> forall k :: 0 <= k < |j0.items| ==> !old_[j0.items[k].op].Dir?
      ensures f.Go? ==> faults == old(faults) && crashes == old(crashes)
      ensures |j.items| == |j0.items| && forall m :: 0 <= m < |j.items| ==> j.items[m].op == j0.items[m].op
      ensures j.redirects == j0.redirects
      ensures exists x :: NotedBut(old(old_), old(new_), old_, new_, j.items, x) && (f.Go? ==> x == -1)
      ensures exists x :: NotedBut(old(old_), old(new_), old_, new_, journal.j.items, x)
      ensures f.Go? ==> journal == Written(j)
    {
      hide NotedBut;
      NothingNoted(j0.items);
      j := j0;
      var k := 0;
      while k < |j.items|
        invariant 0 <= k <= |j.items| == |j0.items|
        invariant Safe() && journal == Written(j) && JournalOk(j) && j.phase.Moving?
        invariant faults == old(faults) && crashes == old(crashes)
        invariant Emptied(old(old_), old_)
        invariant forall m :: 0 <= m < |j.items| ==> j.items[m].op == j0.items[m].op
        invariant j.redirects == j0.redirects && |new_| == |old(new_)|
        invariant forall m :: k <= m < |j.items| ==> j.items[m] == j0.items[m]
        invariant forall m :: 0 <= m < k ==> !old_[j0.items[m].op].Dir?
        invariant NotedBut(old(old_), old(new_), old_, new_, j.items, -1)
      {
        var item := j.items[k];
        ghost var o, n := old_, new_;
        if !item.status.ItemMoved? && old_[item.op].Dir? {
          f := MoveRoot(item.op, item.manifest);
          if !f.Go? {
            OneAstray(old(old_), old(new_), o, n, j.items, item.op);
            return;
          }
          OneAstray(old(old_), old(new_), o, n, j.items, item.op);
          NotedNext(old(old_), old(new_), o, n, j.items, k);
          j := j.(items := j.items[k := item.(status := ItemMoved)]);
          f := WriteJournal(j);
          if !f.Go? {
            return;
          }
        }
        k := k + 1;
      }
      f := Go;
    }

    /**
     One entry of the rollback: a redirect goes; a root that was moved goes back unless the old one
     is there again.
     */
    method UndoItem(item: Item) returns (f: Flow, undone: bool)
      requires Safe() && item.op < |old_| && (Finishing(journal) ==> torn)
      requires trees[item.op].Some? ==> Clean(trees[item.op].value)
      modifies this`old_, this`new_, this`faults, this`crashes
      ensures Safe() && faults >= old(faults) && crashes >= old(crashes)
      ensures (f.Crash? ==> crashes > old(crashes)) && (f.Fault? ==> faults > old(faults) && f.why.Io?)
      ensures f.Go? ==> faults == old(faults) && crashes == old(crashes)
      ensures |old_| == |old(old_)| && forall k :: 0 <= k < |old_| && k != item.op ==> old_[k] == old(old_)[k]
      ensures var now := old_[item.op]; var before := old(old_)[item.op];
        now == before || (!Legacy(before) && (now.Absent? || Movable(now)))
      ensures undone ==> f.Go? && item.status.ItemMoved?
      ensures !undone ==> new_ == old(new_)
      ensures |new_| == |old(new_)| && forall k :: 0 <= k < |new_| && k != item.op ==> new_[k] == old(new_)[k]
      ensures var o, n := old(old_)[item.op], old(new_)[item.op];
        f.Go? ==>
          if item.status.ItemMoved? && !Legacy(o) && !n.Absent? then old_[item.op] == n && new_[item.op] == Absent
          else new_[item.op] == n && old_[item.op] == if o.Redirect? then Absent else o
    {
      var i := item.op;
      undone := false;
      assert Home(old_[i], new_[i], trees[i]);
      if old_[i].Redirect? {
        f := Change(i, Absent, new_[i]);
        if !f.Go? {
          return;
        }
      }
      f := Go;
      if item.status.ItemMoved? && !new_[i].Absent? && old_[i].Absent? {
        f := Change(i, new_[i], Absent);
        undone := f.Go?;
      }
    }

    /**
     The entries from `k` on have been undone: a root that one of them notes as moved is back at its old
     place, if there was nothing there, and other redirects they name are gone.
     */
    static ghost predicate UndoneFrom(o0: seq<Node>, n0: seq<Node>, o: seq<Node>, n: seq<Node>, items: seq<Item>,
                                      k: nat)
    {
      && |o0| == |n0| == |o| == |n|
      && forall i :: 0 <= i < |o0| ==>
           if !Legacy(o0[i]) && !n0[i].Absent? && (exists m :: k <= m < |items| && items[m].op == i
                                                                && items[m].status.ItemMoved?)
           then o[i] == n0[i] && n[i] == Absent
           else n[i] == n0[i] && o[i] == if o0[i].Redirect? && (exists m :: k <= m < |items| && items[m].op == i)
                                         then Absent else o0[i]
    }

    lemma NewRootsAreReal()
      requires Safe()
      ensures |new_| == |old_| && forall i :: 0 <= i < |new_| ==> !new_[i].Redirect?
    {
      forall i | 0 <= i < |new_| ensures !new_[i].Redirect? {
        assert Home(old_[i], new_[i], trees[i]);
      }
    }

    lemma NothingUndone(items: seq<Item>)
      requires |old_| == |new_|
      ensures UndoneFrom(old_, new_, old_, new_, items, |items|)
    {
    }

    static lemma UndoneNext(o0: seq<Node>, n0: seq<Node>, o: seq<Node>, n: seq<Node>, items: seq<Item>, k: nat,
                            oo: seq<Node>, nn: seq<Node>)
      requires 0 < k <= |items| && UndoneFrom(o0, n0, o, n, items, k) && items[k - 1].op < |o|
      requires |oo| == |nn| == |o|
      requires forall i :: 0 <= i < |o| && i != items[k - 1].op ==> oo[i] == o[i] && nn[i] == n[i]
      requires forall i :: 0 <= i < |n0| ==> !n0[i].Redirect?
      requires var i := items[k - 1].op;
        if items[k - 1].status.ItemMoved? && !Legacy(o[i]) && !n[i].Absent? then oo[i] == n[i] && nn[i] == Absent
        else nn[i] == n[i] && oo[i] == if o[i].Redirect? then Absent else o[i]
      ensures UndoneFrom(o0, n0, oo, nn, items, k - 1)
    {
      var j := items[k - 1].op;
      assert oo[j] == oo[items[k - 1].op];
    }

    /** Every root that has been moved back, but perhaps `x`, is noted as rolled back. */
    static ghost predicate BackNotedBut(n0: seq<Node>, n: seq<Node>, items: seq<Item>, x: int) {
      |n0| == |n| && forall i :: 0 <= i < |n| && i != x && n[i] != n0[i] ==> BackNotedAt(items, i)
    }

    static ghost predicate BackNotedAt(items: seq<Item>, i: nat) {
      exists k :: 0 <= k < |items| && items[k].op == i && items[k].status.RolledBack?
    }

    static lemma NoneBack(n: seq<Node>, items: seq<Item>)
      ensures BackNotedBut(n, n, items, -1)
    {
    }

    static lemma BackNotedNext(n0: seq<Node>, n: seq<Node>, nn: seq<Node>, items: seq<Item>, k: nat)
      requires BackNotedBut(n0, n, items, -1) && k < |items| && items[k].op < |n| == |nn| && items[k].status.ItemMoved?
      requires forall i :: 0 <= i < |n| && i != items[k].op ==> nn[i] == n[i]
      ensures BackNotedBut(n0, nn, items, items[k].op)
      ensures BackNotedBut(n0, nn, items[k := items[k].(status := RolledBack)], -1)
    {
      var next := items[k := items[k].(status := RolledBack)];
      assert next[k].op == items[k].op && next[k].status.RolledBack?;
      forall i | 0 <= i < |n| && BackNotedAt(items, i) ensures BackNotedAt(next, i) {
        var m :| 0 <= m < |items| && items[m].op == i && items[m].status.RolledBack?;
        assert next[m] == items[m];
      }
    }

    static lemma BackNotedMore(n0: seq<Node>, n: seq<Node>, nn: seq<Node>, items: seq<Item>, x: nat)
      requires BackNotedBut(n0, n, items, -1) && x < |n| == |nn| && forall i :: 0 <= i < |n| && i != x ==> nn[i] == n[i]
      ensures BackNotedBut(n0, nn, items, x)
    {
    }

    /** `_rollback_from_journal`: what the journal says was moved goes back, last first; then the journal goes. */
    method Rollback(j0: Journal) returns (f: Flow)
      requires Safe() && journal.Written? && JournalOk(j0)
      requires (Finishing(journal) ==> torn) && (j0.phase.Moved? ==> torn) && (j0.phase.Moving? || j0.phase.Moved?)
      requires Readable(journal)
      modifies this`old_, this`new_, this`journal, this`faults, this`crashes, this`torn
      ensures Safe() && faults >= old(faults) && crashes >= old(crashes) && Readable(journal)
      ensures (f.Crash? ==> crashes > old(crashes)) && (f.Fault? ==> faults > old(faults) && f.why.Io?)
      ensures f.Go? ==> journal == NoJournal && !torn
      ensures torn ==> old(torn)
      ensures Reverted(old(old_), old_)
      ensures f.Go? ==> UndoneFrom(old(old_), old(new_), old_, new_, j0.items, 0)
      ensures journal.Written? ==> exists x :: BackNotedBut(old(new_), new_, journal.j.items, x)
    {
      hide UndoneFrom, BackNotedBut;
      NoneBack(new_, j0.items);
      NoneBack(new_, journal.j.items);
      NothingUndone(j0.items);
      NewRootsAreReal();
      var j := j0;
      var k := |j.items|;
      while k > 0
        invariant 0 <= k <= |j.items|
        invariant Safe() && journal.Written? && JournalOk(j) && j.phase == j0.phase && torn == old(torn)
        invariant (Finishing(journal) ==> torn) && Readable(journal)
        invariant faults == old(faults) && crashes == old(crashes)
        invariant Reverted(old(old_), old_)
        invariant |j.items| == |j0.items| && forall m :: 0 <= m < k ==> j.items[m] == j0.items[m]
        invariant UndoneFrom(old(old_), old(new_), old_, new_, j0.items, k)
        invariant BackNotedBut(old(new_), new_, j.items, -1) && BackNotedBut(old(new_), new_, journal.j.items, -1)
      {
        k := k - 1;
        var undone;
        ghost var o, n := old_, new_;
        f, undone := UndoItem(j.items[k]);
        if !f.Go? {
          return;
        }
        UndoneNext(old(old_), old(new_), o, n, j0.items, k + 1, old_, new_);
        if undone {
          BackNotedNext(old(new_), n, new_, j.items, k);
          BackNotedMore(old(new_), n, new_, journal.j.items, j.items[k].op);
          j := j.(items := j.items[k := j.items[k].(status := RolledBack)]);
          f := WriteJournal(j);
          if !f.Go? {
            return;
          }
        }
      }
      f := UnlinkJournal();
    }

    /** `_remove_stale_redirects_if_possible`. */
    method RemoveStaleRedirects() returns (f: Flow)
      requires Safe()
      modifies this`old_, this`new_, this`faults, this`crashes, this`sawActive, this`sawIdle
      ensures Safe() && faults >= old(faults) && crashes >= old(crashes)
      ensures (old(sawActive) ==> sawActive) && (old(sawIdle) ==> sawIdle)
      ensures (f.Crash? ==> crashes > old(crashes)) && (f.Fault? ==> faults > old(faults) && f.why.Io?)
      ensures f.Go? && !sawActive ==> NoRedirect()
      ensures RedirectsGone(old(old_), old_) && new_ == old(new_)
      ensures !sawIdle ==> f.Go? && old_ == old(old_) && faults == old(faults) && crashes == old(crashes)
    {
      var active := TransactionActive();
      if active {
        return Go;
      }
      for i := 0 to |old_|
        invariant Safe() && faults == old(faults) && crashes == old(crashes) && RedirectsGone(old(old_), old_)
        invariant sawActive == old(sawActive) && sawIdle && new_ == old(new_)
        invariant forall k :: 0 <= k < i ==> !old_[k].Redirect?
      {
        if old_[i].Redirect? {
          f := Change(i, Absent, new_[i]);
          if !f.Go? {
            return;
          }
        }
      }
      f := Go;
    }

    /** `_ensure_current_roots`. */
    method EnsureRoots() returns (f: Flow)
      requires Safe()
      modifies this`old_, this`new_, this`faults, this`crashes
      ensures Safe() && old_ == old(old_) && faults >= old(faults) && crashes >= old(crashes)
      ensures (f.Crash? ==> crashes > old(crashes)) && (f.Fault? ==> faults > old(faults) && f.why.Io?)
      ensures f.Go? ==> forall i :: 0 <= i < |new_| ==> new_[i].Dir?
      ensures |new_| == |old(new_)| && forall i :: 0 <= i < |new_| ==>
                new_[i] == old(new_)[i] || (old(new_)[i].Absent? && new_[i] == Dir(EMPTY))
    {
      for i := 0 to |new_|
        invariant Safe() && old_ == old(old_) && faults == old(faults) && crashes == old(crashes)
        invariant |new_| == |old(new_)|
        invariant forall k :: 0 <= k < |new_| ==>
                    new_[k] == old(new_)[k] || (old(new_)[k].Absent? && new_[k] == Dir(EMPTY))
        invariant forall k :: 0 <= k < i ==> new_[k].Dir?
      {
        assert Home(old_[i], new_[i], trees[i]);
        if new_[i].Absent? {
          f := Change(i, old_[i], Dir(EMPTY));
          if !f.Go? {
            return;
          }
        }
      }
      f := Go;
    }

    method WriteMarker() returns (f: Flow)
      modifies this`marker, this`faults, this`crashes
      ensures marker == (old(marker) || f.Go?)
      ensures f.Fault? ==> f.why.Io?
      ensures faults == old(faults) + (if f.Fault? then 1 else 0)
      ensures crashes == old(crashes) + (if f.Crash? then 1 else 0)
    {
      f := Ask();
      marker := marker || f.Go?;
    }

    /** What a migration that has come to its end leaves on the disk. */
    ghost predicate Finished()
      reads this
    {
      && journal == NoJournal && marker && NoRedirect()
      && (forall i :: 0 <= i < |new_| ==> new_[i].Dir?)
    }

    /** The old roots lose what holds no data: the redirects of the journal, then every redirect and empty directory. */
    method ClearOldRoots(redirects: seq<nat>) returns (f: Flow)
      requires Safe() && forall k :: 0 <= k < |redirects| ==> redirects[k] < |old_|
      modifies this`old_, this`new_, this`faults, this`crashes
      ensures Safe() && faults >= old(faults) && crashes >= old(crashes)
      ensures (f.Crash? ==> crashes > old(crashes)) && (f.Fault? ==> faults > old(faults) && f.why.Io?)
      ensures f.Go? ==> NoRedirect() && faults == old(faults) && crashes == old(crashes)
      ensures Lightened(old(old_), old_)
    {
      for k := 0 to |redirects|
        invariant Safe() && faults == old(faults) && crashes == old(crashes) && Lightened(old(old_), old_)
      {
        var i := redirects[k];
        if old_[i].Redirect? {
          f := Change(i, Absent, new_[i]);
          if !f.Go? {
            return;
          }
        }
      }
      for i := 0 to |old_|
        invariant Safe() && faults == old(faults) && crashes == old(crashes) && Lightened(old(old_), old_)
        invariant forall k :: 0 <= k < i ==> !old_[k].Redirect?
      {
        if old_[i].Redirect? || old_[i] == Dir(EMPTY) {
          f := Change(i, Absent, new_[i]);
          if !f.Go? {
            return;
          }
        }
      }
      f := Go;
    }

    /**
     `_finalize_success`: the old roots are cleared, new roots are ensured, the marker is written,
     the journal goes.
     */
    method FinalizeSuccess() returns (f: Flow)
      requires Safe()
      modifies this`old_, this`new_, this`journal, this`marker, this`faults, this`crashes, this`torn
      ensures Safe() && faults >= old(faults) && crashes >= old(crashes)
      ensures f.Crash? ==> crashes > old(crashes)
      ensures f.Fault? ==> faults > old(faults) || (old(journal).Garbled? && f == Fault(Unreadable))
      ensures f.Fault? ==> f != Fault(RefusesToMerge)
      ensures f.Go? ==> Finished()
      ensures !f.Go? ==> journal == old(journal) && torn == old(torn)
      ensures Lightened(old(old_), old_)
    {
      var redirects: seq<nat> := [];
      if journal.Garbled? {
        return Fault(Unreadable);
      } else if journal.Written? {
        redirects := journal.j.redirects;
      }
      f := ClearOldRoots(redirects);
      if !f.Go? {
        return;
      }
      f := EnsureRoots();
      if !f.Go? {
        return;
      }
      f := WriteMarker();
      if !f.Go? {
        return;
      }
      f := UnlinkJournal();
    }

    /** `_create_directory_redirect` at one old root. */
    method CreateRedirect(i: nat) returns (f: Flow)
      requires Safe() && i < |old_| && new_[i].Dir?
      modifies this`old_, this`new_, this`faults, this`crashes
      ensures Safe() && faults >= old(faults) && crashes >= old(crashes)
      ensures (f.Crash? ==> crashes > old(crashes)) && f != Fault(RefusesToMerge)
      ensures new_ == old(new_) && (f.Go? ==> old_ == old(old_)[i := Redirect])
      ensures |old_| == |old(old_)| && forall k :: 0 <= k < |old_| && k != i ==> old_[k] == old(old_)[k]
      ensures Weighty(old(old_)[i]) ==> f.Fault? && old_ == old(old_)
      ensures f.Go? ==> faults == old(faults) && crashes == old(crashes)
      ensures !Weighty(old(old_)[i]) && faults == old(faults) && crashes == old(crashes) ==> f.Go?
    {
      assert Home(old_[i], new_[i], trees[i]);
      if old_[i].Redirect? || old_[i] == Dir(EMPTY) {
        f := Change(i, Absent, new_[i]);
        if !f.Go? {
          return;
        }
      } else if !old_[i].Absent? {
        return Fault(NotADirectory);
      }
      f := Change(i, Redirect, new_[i]);
    }

    ghost predicate NothingHeavy(items: seq<Item>)
      reads this
    {
      forall k :: 0 <= k < |items| && items[k].op < |old_| ==> !Weighty(old_[items[k].op])
    }

    /** `_create_update_redirects`: the running update finds the data at the old roots too. */
    method CreateUpdateRedirects(j0: Journal) returns (f: Flow, j: Journal)
      requires Safe() && Finishing(journal) && JournalOk(j0) && j0.phase.Moved?
      modifies this`old_, this`new_, this`faults, this`crashes
      ensures Safe() && faults >= old(faults) && crashes >= old(crashes)
      ensures (f.Crash? ==> crashes > old(crashes)) && f != Fault(RefusesToMerge)
      ensures JournalOk(j) && j.phase.Moved?
      ensures f.Go? ==> forall k :: 0 <= k < |j0.items| ==>
                old_[j0.items[k].op].Redirect? || new_[j0.items[k].op].Absent?
      ensures new_ == old(new_) && |old_| == |old(old_)|
      ensures f.Go? ==> faults == old(faults) && crashes == old(crashes)
      ensures forall i :: 0 <= i < |old_| ==>
                old_[i] == old(old_)[i] || exists k :: 0 <= k < |j0.items| && j0.items[k].op == i
      ensures f.Go? ==> j == j0.(redirects := j.redirects)
      ensures f.Go? ==> forall i: nat :: i in j.redirects <==>
                i < |new_| && !new_[i].Absent? && exists k :: 0 <= k < |j0.items| && j0.items[k].op == i
      ensures old(NothingHeavy(j0.items)) && faults == old(faults) && crashes == old(crashes) ==> f.Go?
    {
      j := j0;
      var redirects: seq<nat> := [];
      for k := 0 to |j.items|
        invariant Safe() && |old_| == |old(old_)| && |new_| == |trees|
        invariant new_ == old(new_) && faults == old(faults) && crashes == old(crashes)
        invariant forall i :: 0 <= i < |old_| ==> old_[i] == old(old_)[i] || old_[i].Redirect?
        invariant forall i :: 0 <= i < |old_| ==>
                    old_[i] == old(old_)[i] || exists m :: 0 <= m < k && j0.items[m].op == i
        invariant forall i: nat :: i in redirects <==>
                    i < |new_| && !new_[i].Absent? && exists m :: 0 <= m < k && j0.items[m].op == i
        invariant forall m :: 0 <= m < |redirects| ==> redirects[m] < |trees|
        invariant forall m :: 0 <= m < k ==> old_[j.items[m].op].Redirect? || new_[j.items[m].op].Absent?
      {
        var i := j.items[k].op;
        if !new_[i].Absent? {
          assert Home(old_[i], new_[i], trees[i]);
          f := CreateRedirect(i);
          if !f.Go? {
            return;
          }
          redirects := redirects + [i];
        }
      }
      j := j.(redirects := redirects);
      f := Go;
    }

    method LegacyRoots() returns (ops: seq<nat>)
      requires Safe()
      ensures forall k :: 0 <= k < |ops| ==> ops[k] < |old_| && Legacy(old_[ops[k]])
      ensures forall i :: 0 <= i < |old_| && Legacy(old_[i]) ==> i in ops
    {
      ops := [];
      for i := 0 to |old_|
        invariant forall k :: 0 <= k < |ops| ==> ops[k] < |old_| && Legacy(old_[ops[k]])
        invariant forall k :: 0 <= k < i && Legacy(old_[k]) ==> k in ops
      {
        if Legacy(old_[i]) {
          ops := ops + [i];
        }
      }
    }

    /** storage_layout.py:156-164: nothing to move. */
    method NothingToMove() returns (f: Flow)
      requires Safe() && forall i :: 0 <= i < |old_| ==> !Legacy(old_[i])
      modifies this`old_, this`new_, this`marker, this`finalizer, this`faults, this`crashes, this`sawActive,
               this`sawIdle
      ensures Safe() && old_ == old(old_) && faults >= old(faults) && crashes >= old(crashes)
      ensures (old(sawActive) ==> sawActive) && (old(sawIdle) ==> sawIdle)
      ensures (f.Crash? ==> crashes > old(crashes)) && (f.Fault? ==> faults > old(faults) && f.why.Io?)
      ensures f.Go? ==> forall i :: 0 <= i < |new_| ==> new_[i].Dir?
      ensures f.Go? && (!sawActive || NoRedirect()) ==> marker && finalizer == old(finalizer)
      ensures f.Go? && !sawIdle && !NoRedirect() ==> marker == old(marker) && finalizer
      ensures |new_| == |old(new_)| && forall i :: 0 <= i < |new_| ==>
                new_[i] == old(new_)[i] || (old(new_)[i].Absent? && new_[i] == Dir(EMPTY))
    {
      f := EnsureRoots();
      if !f.Go? {
        return;
      }
      var active := TransactionActive();
      if active && exists i :: 0 <= i < |old_| && old_[i].Redirect? {
        finalizer := true;
      } else {
        f := WriteMarker();
      }
    }

    static ghost predicate BackBut(o0: seq<Node>, n0: seq<Node>, o: seq<Node>, n: seq<Node>, x: int) {
      && |o0| == |n0| == |o| == |n|
      && forall i :: 0 <= i < |o0| && i != x ==> o[i] == o0[i] && (n[i] == n0[i] || n[i].Absent?)
    }

    static lemma NothingLost(o: seq<Node>, n: seq<Node>)
      requires |o| == |n|
      ensures BackBut(o, n, o, n, -1)
    {
    }

    static lemma BackHome(o0: seq<Node>, n0: seq<Node>, o: seq<Node>, n: seq<Node>, items: seq<Item>, x: int,
                          oo: seq<Node>, nn: seq<Node>)
      requires NotedBut(o0, n0, o, n, items, x) && UndoneFrom(o, n, oo, nn, items, 0)
      requires forall k :: 0 <= k < |items| ==> items[k].op < |o0| && o0[items[k].op].Dir?
      ensures BackBut(o0, n0, oo, nn, x)
    {
      forall i | 0 <= i < |o0| && i != x ensures oo[i] == o0[i] && (nn[i] == n0[i] || nn[i].Absent?) {
        if NotedAt(items, i) {
          var k :| 0 <= k < |items| && items[k].op == i && items[k].status.ItemMoved?;
          assert o[items[k].op].Absent?;
        }
      }
    }

    /**
     storage_layout.py:182-190: from the first journal write to the one that says `moved`, with the
     rollback on failure: after a single mishap the journal is gone and every root but perhaps one, the
     one that was being moved, is back where it was.
     */
    method MoveAll(items: seq<Item>) returns (f: Flow, j: Journal)
      requires Safe() && journal == NoJournal && JournalOk(Journal(Moving, items, []))
      requires forall k :: 0 <= k < |items| ==>
                 old_[items[k].op].Dir? && items[k] == Item(items[k].op, Pending, Manifest(old_[items[k].op].tree))
      requires forall i :: 0 <= i < |old_| && Legacy(old_[i]) ==> exists k :: 0 <= k < |items| && items[k].op == i
      modifies this`old_, this`new_, this`journal, this`faults, this`crashes, this`torn
      ensures Safe() && faults >= old(faults) && crashes >= old(crashes) && Readable(journal)
      ensures (f.Crash? ==> crashes > old(crashes)) && (f.Fault? ==> faults > old(faults) && f.why.Io?)
      ensures torn ==> faults > old(faults)
      ensures f.Go? ==> JournalOk(j) && j.phase.Moved? && journal == Written(j) && AllMoved() && !torn
      ensures f.Go? ==> faults == old(faults) && crashes == old(crashes) && j.redirects == []
      ensures f.Go? ==> |j.items| == |items| && forall k :: 0 <= k < |items| ==> j.items[k].op == items[k].op
      ensures f.Go? ==> Carried(old(old_), old(new_), old_, new_, items)
      ensures f.Fault? && faults == old(faults) + 1 && crashes == old(crashes) ==>
                journal == NoJournal && exists x :: BackBut(old(old_), old(new_), old_, new_, x)
    {
      hide NotedBut, UndoneFrom, BackBut, Carried, Home, Emptied, Reverted;
      j := Journal(Moving, items, []);
      f := WriteJournal(j);
      if !f.Go? {
        NothingLost(old_, new_);
        return;
      }
      ghost var before, new0 := old_, new_;
      f, j := Move(j);
      ghost var o, n := old_, new_;
      ghost var x :| NotedBut(before, new0, o, n, j.items, x) && (f.Go? ==> x == -1);
      if f.Go? {
        NotedIsCarried(before, new0, o, n, items, j.items);
        assert AllMoved() by {
          forall i | 0 <= i < |old_| ensures !old_[i].Dir? {
            if Legacy(before[i]) {
              var k :| 0 <= k < |items| && items[k].op == i;
            }
          }
        }
        j := j.(phase := Moved);
        f := WriteJournal(j);
        if f.Fault? {
          torn := true;
        }
      }
      if f.Fault? {
        var g := Rollback(j);
        if g.Go? {
          BackHome(before, new0, o, n, j.items, x, old_, new_);
        } else {
          f := g;
        }
      }
    }

    /** The journal and the roots let a start that meets no mishap and no update transaction succeed. */
    ghost predicate CanFinish()
      reads this
    {
      || Finishing(journal)
      || ((journal == NoJournal || (journal.Written? && journal.j.phase.Moving?))
          && forall i :: 0 <= i < |old_| && Legacy(old_[i]) ==> Movable(old_[i]))
    }

    /**
     Where an update found every root of `o0` that had one: each old root redirects to its directory at
     the new root, the journal lists exactly these, and the finaliser has been started.
     */
    ghost predicate OldRootsLead(o0: seq<Node>, n0: seq<Node>)
      reads this
    {
      && |o0| == |n0| == |old_| == |new_|
      && (forall i :: 0 <= i < |o0| ==>
            if Legacy(o0[i]) then old_[i].Redirect? && new_[i] == o0[i] else old_[i] == o0[i] && new_[i] == n0[i])
      && journal.Written? && journal.j.phase.Redirects? && finalizer
      && (forall i: nat :: i in journal.j.redirects <==> i < |o0| && Legacy(o0[i]))
    }

    /**
     `prepare`. Wherever it stops, every tree is whole at exactly one root and nothing was merged.
     Undisturbed and outside an update it succeeds exactly when it can, and then the migration is
     finished: with every tree at its new root, unless the journal already said `moved` while a
     tree was still at its old one.
     */
    method Prepare() returns (f: Flow)
      requires Safe()
      modifies this
      ensures Safe() && faults >= old(faults) && crashes >= old(crashes)
      ensures (old(sawActive) ==> sawActive) && (old(sawIdle) ==> sawIdle)
      ensures f != Fault(RefusesToMerge) && (f.Crash? ==> crashes > old(crashes))
      ensures old(Readable(journal)) ==> Readable(journal)
      ensures torn ==> old(torn) || faults > old(faults)
      ensures faults == old(faults) && crashes == old(crashes) && !sawActive ==>
                && (f.Go? <==> old(CanFinish()))
                && (f.Go? ==> Finished())
                && (f.Go? ==> (AllMoved() <==> !old(Finishing(journal) && !AllMoved())))
      ensures faults == old(faults) && crashes == old(crashes) && !sawIdle && old(journal) == NoJournal
              && (exists i :: 0 <= i < |old(old_)| && Legacy(old(old_)[i])) ==>
                && (f.Go? <==> forall i :: 0 <= i < |old(old_)| && Legacy(old(old_)[i]) ==> Movable(old(old_)[i]))
                && (f.Go? ==> |old_| == |new_| == |old(old_)| == |old(new_)|)
                && (f.Go? ==> forall i :: 0 <= i < |old_| ==>
                      if Legacy(old(old_)[i]) then old_[i] == Redirect && new_[i] == old(old_)[i]
                      else old_[i] == old(old_)[i] && new_[i] == old(new_)[i])
                && (f.Go? ==> journal.Written? && journal.j.phase == Redirects && finalizer && marker == old(marker))
                && (f.Go? ==> forall i: nat :: i in journal.j.redirects <==>
                      i < |old(old_)| && Legacy(old(old_)[i]))
      ensures old(Finishing(journal)) && !sawIdle ==>
                f.Go? && old_ == old(old_) && new_ == old(new_) && journal == old(journal) && marker == old(marker)
                && finalizer == old(finalizer)
    {
      if journal.Garbled? {
        return Fault(Unreadable);
      }
      if journal.Written? {
        if Finishing(journal) {
          var active := TransactionActive();
          if !active {
            f := FinalizeSuccess();
            return;
          }
          return Go;
        }
        if !journal.j.phase.Moving? {
          return Fault(Unsupported);
        }
        f := Rollback(journal.j);
        if !f.Go? {
          return;
        }
      }
      f := Migrate();
    }

    /** storage_layout.py:150-198: a start that finds no journal, or has rolled it back. */
    method Migrate() returns (f: Flow)
      requires Safe() && journal == NoJournal && !torn
      modifies this
      ensures Safe() && faults >= old(faults) && crashes >= old(crashes)
      ensures (old(sawActive) ==> sawActive) && (old(sawIdle) ==> sawIdle)
      ensures f != Fault(RefusesToMerge) && (f.Crash? ==> crashes > old(crashes))
      ensures Readable(journal) && (torn ==> faults > old(faults))
      ensures faults == old(faults) && crashes == old(crashes) && !sawActive ==>
                && (f.Go? <==> forall i :: 0 <= i < |old(old_)| && Legacy(old(old_)[i]) ==> Movable(old(old_)[i]))
                && (f.Go? ==> Finished() && AllMoved())
      ensures faults == old(faults) && crashes == old(crashes) && !sawIdle
              && (exists i :: 0 <= i < |old(old_)| && Legacy(old(old_)[i])) ==>
                && (f.Go? <==> forall i :: 0 <= i < |old(old_)| && Legacy(old(old_)[i]) ==> Movable(old(old_)[i]))
                && (f.Go? ==> OldRootsLead(old(old_), old(new_)) && marker == old(marker))
    {
      f := RemoveStaleRedirects();
      if !f.Go? {
        return;
      }
      var ops := LegacyRoots();
      if ops == [] {
        f := NothingToMove();
        return;
      }
      f := MigrateRoots(ops);
    }

    /** storage_layout.py:166-198. */
    method MigrateRoots(ops: seq<nat>) returns (f: Flow)
      requires Safe() && journal == NoJournal && !torn
      requires forall k :: 0 <= k < |ops| ==> ops[k] < |old_| && Legacy(old_[ops[k]])
      requires forall i :: 0 <= i < |old_| && Legacy(old_[i]) ==> i in ops
      modifies this
      ensures Safe() && faults >= old(faults) && crashes >= old(crashes)
      ensures (old(sawActive) ==> sawActive) && (old(sawIdle) ==> sawIdle)
      ensures f != Fault(RefusesToMerge) && (f.Crash? ==> crashes > old(crashes))
      ensures Readable(journal) && (torn ==> faults > old(faults))
      ensures faults == old(faults) && crashes == old(crashes) && !sawActive ==>
                && (f.Go? <==> forall k :: 0 <= k < |ops| ==> Movable(old(old_)[ops[k]]))
                && (f.Go? ==> Finished() && AllMoved())
      ensures faults == old(faults) && crashes == old(crashes) && !sawIdle ==>
                && (f.Go? <==> forall k :: 0 <= k < |ops| ==> Movable(old(old_)[ops[k]]))
                && (f.Go? ==> OldRootsLead(old(old_), old(new_)) && marker == old(marker))
    {
      ghost var o0, n0 := old_, new_;
      f := Preflight(ops);
      if !f.Go? {
        return;
      }
      var items;
      f, items := Describe(ops);
      if !f.Go? {
        return;
      }
      assert forall k :: 0 <= k < |ops| ==> items[k].op == ops[k];
      var j;
      f, j := MoveAll(items);
      if f.Go? {
        f := AfterMove(j, o0, n0, ops);
      }
    }

    /** storage_layout.py:192-198: keep the old roots reachable for a running update, or finish. */
    method AfterMove(j0: Journal, ghost o0: seq<Node>, ghost n0: seq<Node>, ghost ops: seq<nat>) returns (f: Flow)
      requires Safe() && JournalOk(j0) && j0.phase.Moved? && journal == Written(j0) && AllMoved() && !torn
      requires |o0| == |n0| == |old_| && |ops| == |j0.items| && forall k :: 0 <= k < |ops| ==> j0.items[k].op == ops[k]
      requires forall k :: 0 <= k < |ops| ==> ops[k] < |o0| && o0[ops[k]].Dir?
      requires forall i :: 0 <= i < |o0| && Legacy(o0[i]) ==> i in ops
      requires forall i :: 0 <= i < |o0| ==> if i in ops then old_[i].Absent? && new_[i] == o0[i]
                                             else old_[i] == o0[i] && (new_[i] == n0[i])
      modifies this
      ensures Safe() && faults >= old(faults) && crashes >= old(crashes)
      ensures (old(sawActive) ==> sawActive) && (old(sawIdle) ==> sawIdle)
      ensures f != Fault(RefusesToMerge) && (f.Crash? ==> crashes > old(crashes))
      ensures Readable(journal) && !torn
      ensures faults == old(faults) && crashes == old(crashes) && !sawActive ==> f.Go? && Finished() && AllMoved()
      ensures faults == old(faults) && crashes == old(crashes) && !sawIdle ==>
                f.Go? && OldRootsLead(o0, n0) && marker == old(marker)
    {
      var active := TransactionActive();
      if !active {
        f := FinalizeSuccess();
        return;
      }
      var j;
      f, j := CreateUpdateRedirects(j0);
      if !f.Go? {
        return;
      }
      f := WriteJournal(j.(phase := Redirects));
      if f.Go? {
        finalizer := true;
      }
    }

    /** The finaliser thread, once the update is completed. */
    method FinalizerFires() returns (f: Flow)
      requires Safe()
      modifies this
      ensures Safe() && faults >= old(faults) && crashes >= old(crashes) && (f.Crash? ==> crashes > old(crashes))
      ensures f != Fault(RefusesToMerge) && (old(Readable(journal)) ==> Readable(journal)) && (torn ==> old(torn))
      ensures sawActive == old(sawActive)
      ensures f.Go? ==> Finished() && (old(AllMoved()) ==> AllMoved())
    {
      f := FinalizeSuccess();
    }

    /** Every tree that was to be moved is whole at its new root, and nothing is left at the old one. */
    ghost predicate Arrived()
      requires |old_| == |new_| == |trees|
      reads this
    {
      forall i :: 0 <= i < |trees| && trees[i].Some? ==> new_[i] == Dir(trees[i].value) && old_[i].Absent?
    }

    /** All there is to move can be moved. */
    ghost predicate Healthy() {
      plains == {} && forall i :: 0 <= i < |trees| && trees[i].Some? ==> Clean(trees[i].value)
    }

    lemma AllMovable()
      requires Safe() && Healthy()
      ensures forall i :: 0 <= i < |old_| && Legacy(old_[i]) ==> Movable(old_[i])
    {
      forall i | 0 <= i < |old_| && Legacy(old_[i]) ensures Movable(old_[i]) {
        assert Home(old_[i], new_[i], trees[i]);
      }
    }

    lemma MovedMeansArrived()
      requires Safe() && Finished() && AllMoved()
      ensures Arrived()
    {
      forall i | 0 <= i < |trees| && trees[i].Some? ensures new_[i] == Dir(trees[i].value) && old_[i].Absent? {
        assert Home(old_[i], new_[i], trees[i]);
      }
    }

    /**
     Any number of starts that die, fail or finish anywhere, with finalisers between them, and then
     one undisturbed start outside an update: the migration is finished, and unless some action of
     the disk failed in one of them, as opposed to the process dying, every tree has arrived.
     */
    method Survive(lives: nat) returns (f: Flow, ghost undisturbed: bool)
      requires Safe() && !torn && Readable(journal) && Healthy()
      modifies this
      ensures Safe() && Readable(journal)
      ensures undisturbed ==> f.Go? && Finished()
      ensures undisturbed && faults == old(faults) ==> Arrived()
    {
      var k := 0;
      while k < lives
        invariant Safe() && Readable(journal) && faults >= old(faults) && (torn ==> faults > old(faults))
      {
        var thread: bool := *;
        if thread {
          f := FinalizerFires();
        } else {
          f := Prepare();
        }
        k := k + 1;
      }
      AllMovable();
      sawActive := false;
      ghost var mishaps := faults + crashes;
      f := Prepare();
      undisturbed := faults + crashes == mishaps && !sawActive;
      if undisturbed && faults == old(faults) {
        MovedMeansArrived();
      }
    }

    /** Whatever failed before, a second undisturbed start brings every tree to its new root. */
    method SurviveFailures(lives: nat) returns (f: Flow, ghost undisturbed: bool)
      requires Safe() && !torn && Readable(journal) && Healthy()
      modifies this
      ensures Safe()
      ensures undisturbed ==> f.Go? && Finished() && Arrived()
    {
      ghost var first;
      f, first := Survive(lives);
      AllMovable();
      sawActive := false;
      ghost var mishaps := faults + crashes;
      f := Prepare();
      undisturbed := first && faults + crashes == mishaps && !sawActive;
      if undisturbed {
        MovedMeansArrived();
      }
    }
  }
}

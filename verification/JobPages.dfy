/** `list_page`: the order of a listing, its pages, and the separate way finished jobs are paged. */
module JobPages {
  import opened Common
  import opened JobRecord
  import opened JobStore

  // ----- The order -----

  /** Texts in the order of their characters. */
  predicate TextBefore(a: string, b: string) {
    b != "" && (a == "" || a[0] < b[0] || (a[0] == b[0] && TextBefore(a[1..], b[1..])))
  }

  lemma {:induction false} TextTotal(a: string, b: string)
    ensures a == b || TextBefore(a, b) || TextBefore(b, a)
  {
    if a != "" && b != "" && a[0] == b[0] {
      TextTotal(a[1..], b[1..]);
      assert a == [a[0]] + a[1..] && b == [b[0]] + b[1..];
    }
  }

  lemma {:induction false} TextOnce(a: string, b: string)
    ensures !(TextBefore(a, b) && TextBefore(b, a))
  {
    if a != "" && b != "" {
      TextOnce(a[1..], b[1..]);
    }
  }

  lemma {:induction false} TextOn(a: string, b: string, c: string)
    requires TextBefore(a, b) && TextBefore(b, c)
    ensures TextBefore(a, c)
  {
    if a != "" && a[0] == b[0] == c[0] {
      TextOn(a[1..], b[1..], c[1..]);
    }
  }

  /** The sort key in front of the identifier: jobs.py:1633-1655 and the ORDER BY of jobs.py:1590. */
  function Rank(job: Job, scope: Scope): (int, int) {
    var finished := IsTerminal(job.status);
    match scope
    case Active => (0, job.createdAt)
    case Finished => (0, -job.updatedAt)
    case All => if finished then (1, -job.updatedAt) else (0, job.createdAt)
  }

  predicate Comes(rows: map<JobId, Job>, scope: Scope, a: JobId, b: JobId)
    requires a in rows && b in rows
  {
    var x, y := Rank(rows[a], scope), Rank(rows[b], scope);
    x.0 < y.0 || (x.0 == y.0 && (x.1 < y.1 || (x.1 == y.1 && TextBefore(a, b))))
  }

  /** Which job is listed first: unfinished ones by creation, finished ones by their last update, newest first. */
  lemma ComesMeans(rows: map<JobId, Job>, scope: Scope, a: JobId, b: JobId)
    requires a in rows && b in rows
    ensures var over := (id: JobId) requires id in rows => rows[id].status in {Completed, Failed, Stopped, Cancelled};
      Comes(rows, scope, a, b) <==>
      if scope.Finished? || (scope.All? && over(a) && over(b)) then
        rows[a].updatedAt > rows[b].updatedAt || (rows[a].updatedAt == rows[b].updatedAt && TextBefore(a, b))
      else if scope.Active? || (!over(a) && !over(b)) then
        rows[a].createdAt < rows[b].createdAt || (rows[a].createdAt == rows[b].createdAt && TextBefore(a, b))
      else over(b)
  {
    hide TextBefore;
  }

  lemma SameHead(a: string, b: string, n: nat)
    requires n <= |a| && n <= |b| && a[..n] == b[..n]
    ensures n > 0 ==> a[0] == b[0]
  {
    if n > 0 {
      assert a[..n][0] == b[..n][0];
    }
  }

  /** One text comes before another: where they part it has the smaller character, or it has ended. */
  lemma {:induction false} TextMeans(a: string, b: string)
    ensures TextBefore(a, b) <==>
            exists n: nat :: n <= |a| && n < |b| && a[..n] == b[..n] && (n == |a| || a[n] < b[n])
  {
    if b != "" && a != "" && a[0] == b[0] {
      TextMeans(a[1..], b[1..]);
      if n: nat :| n <= |a[1..]| && n < |b[1..]| && a[1..][..n] == b[1..][..n]
                   && (n == |a[1..]| || a[1..][n] < b[1..][n]) {
        assert a[..n + 1] == [a[0]] + a[1..][..n] && b[..n + 1] == [b[0]] + b[1..][..n];
      }
      if n: nat :| n <= |a| && n < |b| && a[..n] == b[..n] && (n == |a| || a[n] < b[n]) {
        assert n > 0;
        assert a[1..][..n - 1] == a[..n][1..] && b[1..][..n - 1] == b[..n][1..];
      }
    } else {
      forall n: nat | n <= |a| && n < |b| && a[..n] == b[..n] ensures n == 0 {
        SameHead(a, b, n);
      }
      assert a[..0] == b[..0];
    }
  }

  /** `s` lists the rows, each once, in order. */
  ghost predicate InOrder(rows: map<JobId, Job>, scope: Scope, s: seq<JobId>) {
    && (forall id :: id in s <==> id in rows)
    && (forall i, k :: 0 <= i < k < |s| ==> Comes(rows, scope, s[i], s[k]))
  }

  lemma ComesOn(rows: map<JobId, Job>, scope: Scope, a: JobId, b: JobId, c: JobId)
    requires a in rows && b in rows && c in rows && Comes(rows, scope, a, b) && Comes(rows, scope, b, c)
    ensures Comes(rows, scope, a, c)
  {
    if TextBefore(a, b) && TextBefore(b, c) {
      TextOn(a, b, c);
    }
  }

  lemma ComesTotal(rows: map<JobId, Job>, scope: Scope, a: JobId, b: JobId)
    requires a in rows && b in rows && a != b
    ensures Comes(rows, scope, a, b) <==> !Comes(rows, scope, b, a)
  {
    TextTotal(a, b);
    TextOnce(a, b);
  }

  lemma NotBeforeItself(rows: map<JobId, Job>, scope: Scope, a: JobId)
    requires a in rows
    ensures !Comes(rows, scope, a, a)
  {
    TextOnce(a, a);
  }

  lemma OnceOnly(rows: map<JobId, Job>, scope: Scope, s: seq<JobId>, i: nat, k: nat)
    requires InOrder(rows, scope, s) && i < k < |s|
    ensures s[i] != s[k]
  {
    hide Comes;
    assert s[i] in s;
    NotBeforeItself(rows, scope, s[i]);
  }

  lemma FirstComes(rows: map<JobId, Job>, scope: Scope, s: seq<JobId>, a: JobId)
    requires InOrder(rows, scope, s) && a in rows && s != [] && s[0] in rows
    ensures a == s[0] || Comes(rows, scope, s[0], a)
  {
    hide Comes;
    var i :| 0 <= i < |s| && s[i] == a;
  }

  lemma FirstsAgree(rows: map<JobId, Job>, scope: Scope, s: seq<JobId>, t: seq<JobId>)
    requires InOrder(rows, scope, s) && InOrder(rows, scope, t) && s != [] && t != []
    ensures s[0] == t[0]
  {
    hide Comes;
    assert s[0] in s && t[0] in t;
    FirstComes(rows, scope, s, t[0]);
    FirstComes(rows, scope, t, s[0]);
    if s[0] != t[0] {
      ComesTotal(rows, scope, s[0], t[0]);
    }
  }

  /** There is one order only, so pages that are read one after the other fit together. */
  lemma {:induction false} OrderIsUnique(rows: map<JobId, Job>, scope: Scope, s: seq<JobId>, t: seq<JobId>)
    requires InOrder(rows, scope, s) && InOrder(rows, scope, t)
    ensures s == t
    decreases |s|
  {
    hide Comes;
    assert s != [] ==> s[0] in s;
    assert t != [] ==> t[0] in t;
    if s != [] && t != [] {
      FirstsAgree(rows, scope, s, t);
      RestInOrder(rows, scope, s);
      RestInOrder(rows, scope, t);
      OrderIsUnique(rows - {s[0]}, scope, s[1..], t[1..]);
      assert s == [s[0]] + s[1..] && t == [t[0]] + t[1..];
    }
  }

  lemma RestListed(rows: map<JobId, Job>, scope: Scope, s: seq<JobId>, id: JobId)
    requires InOrder(rows, scope, s) && s != []
    ensures id in s[1..] <==> id in rows && id != s[0]
  {
    hide Comes;
    if id in s[1..] {
      var i :| 0 <= i < |s[1..]| && s[1..][i] == id;
      OnceOnly(rows, scope, s, 0, i + 1);
      assert s[i + 1] in s;
    }
    if id in rows && id != s[0] {
      var i :| 0 <= i < |s| && s[i] == id;
      assert s[1..][i - 1] == id;
    }
  }

  lemma RestInOrder(rows: map<JobId, Job>, scope: Scope, s: seq<JobId>)
    requires InOrder(rows, scope, s) && s != []
    ensures InOrder(rows - {s[0]}, scope, s[1..])
  {
    var rest := rows - {s[0]};
    forall id ensures id in s[1..] <==> id in rest {
      RestListed(rows, scope, s, id);
    }
    forall i, k | 0 <= i < k < |s[1..]| ensures Comes(rest, scope, s[1..][i], s[1..][k]) {
      assert s[1..][i] in rest && s[1..][k] in rest;
      assert Comes(rows, scope, s[i + 1], s[k + 1]);
    }
  }

  // ----- Sorting -----

  method First(rows: map<JobId, Job>, scope: Scope, ids: set<JobId>) returns (first: JobId)
    requires ids != {} && ids <= rows.Keys
    ensures first in ids && forall id :: id in ids && id != first ==> Comes(rows, scope, first, id)
  {
    hide Comes;
    first :| first in ids;
    var rest := ids - {first};
    while rest != {}
      invariant rest <= ids && first in ids && first !in rest
      invariant forall id :: id in ids && id !in rest && id != first ==> Comes(rows, scope, first, id)
    {
      var id :| id in rest;
      rest := rest - {id};
      ComesTotal(rows, scope, first, id);
      if Comes(rows, scope, id, first) {
        forall k | k in ids && k !in rest && k != id ensures Comes(rows, scope, id, k) {
          if k != first {
            ComesOn(rows, scope, id, first, k);
          }
        }
        first := id;
      }
    }
  }

  method Sort(rows: map<JobId, Job>, scope: Scope) returns (s: seq<JobId>)
    ensures InOrder(rows, scope, s)
  {
    hide Comes;
    s := [];
    var rest := rows.Keys;
    while rest != {}
      invariant rest <= rows.Keys
      invariant forall id :: id in s <==> id in rows && id !in rest
      invariant forall i, k :: 0 <= i < k < |s| ==> Comes(rows, scope, s[i], s[k])
      invariant forall i, id :: 0 <= i < |s| && id in rest ==> Comes(rows, scope, s[i], id)
    {
      var first := First(rows, scope, rest);
      rest := rest - {first};
      s := s + [first];
    }
  }

  // ----- Pages -----

  function Least(a: nat, b: nat): nat {
    if a <= b then a else b
  }

  /** Where a page ends in a listing of `n` jobs. */
  function PageEnd(n: nat, offset: nat, limit: Option<nat>): nat {
    if limit.None? then n else Least(n, offset + limit.value)
  }

  function Items(view: map<JobId, Job>, ids: seq<JobId>): seq<(JobId, Job)>
    requires forall k :: 0 <= k < |ids| ==> ids[k] in view
  {
    seq(|ids|, k requires 0 <= k < |ids| => (ids[k], view[ids[k]]))
  }

  /** The page, and the offset in the next cursor, that a listing in the order `all` should give. */
  ghost predicate PageOf(view: map<JobId, Job>, all: seq<JobId>, offset: nat, limit: Option<nat>,
                         page: seq<(JobId, Job)>, next: Option<nat>)
  {
    var end := PageEnd(|all|, offset, limit);
    && (forall k :: 0 <= k < |all| ==> all[k] in view)
    && page == (if offset <= end then Items(view, all[offset..end]) else [])
    && next == (if end < |all| then Some(end) else None)
  }

  /** A page and the page its cursor asks for are one longer page; without a cursor there is nothing more. */
  lemma PagesJoin(view: map<JobId, Job>, all: seq<JobId>, offset: nat, limit: nat, page: seq<(JobId, Job)>,
                  next: Option<nat>)
    requires PageOf(view, all, offset, Some(limit), page, next) && offset <= |all|
    ensures forall k :: 0 <= k < |page| ==> offset + k < |all| && page[k] == (all[offset + k], view[all[offset + k]])
    ensures next == if offset + limit < |all| then Some(offset + |page|) else None
    ensures |page| == if next.Some? then limit else |all| - offset
    ensures forall more, rest, then_ ::
              next.Some? && PageOf(view, all, next.value, more, rest, then_) ==>
                PageOf(view, all, offset, if more.Some? then Some(limit + more.value) else None, page + rest, then_)
  {
    forall more: Option<nat>, rest, then_ | next.Some? && PageOf(view, all, next.value, more, rest, then_)
      ensures PageOf(view, all, offset, if more.Some? then Some(limit + more.value) else None, page + rest, then_)
    {
      JoinedPage(view, all, offset, next.value, more, page, rest, then_);
    }
  }

  lemma JoinedPage(view: map<JobId, Job>, all: seq<JobId>, offset: nat, middle: nat, more: Option<nat>,
                   page: seq<(JobId, Job)>, rest: seq<(JobId, Job)>, next: Option<nat>)
    requires offset <= middle < |all| && PageOf(view, all, offset, Some(middle - offset), page, Some(middle))
    requires PageOf(view, all, middle, more, rest, next)
    ensures PageOf(view, all, offset, if more.Some? then Some(middle - offset + more.value) else None, page + rest,
                   next)
  {
    var end := PageEnd(|all|, middle, more);
    assert all[offset..end] == all[offset..middle] + all[middle..end];
  }

  /** It is the page of the jobs `rows` in their order. */
  ghost predicate PageIn(view: map<JobId, Job>, rows: map<JobId, Job>, scope: Scope, offset: nat, limit: Option<nat>,
                         page: seq<(JobId, Job)>, next: Option<nat>)
  {
    exists all :: InOrder(rows, scope, all) && PageOf(view, all, offset, limit, page, next)
  }

  /** jobs.py:1583-1611: finished jobs are paged by the table, and a snapshot replaces its row. */
  method FinishedPage(store: Store, limit: nat, offset: nat)
    returns (page: seq<(JobId, Job)>, next: Option<nat>)
    requires store.Valid()
    ensures store.InSync() ==>
              PageIn(store.View(), Scoped(store.View(), Finished), Finished, offset, Some(limit), page, next)
  {
    hide Comes, InStep, InOrder;
    var rows := map id | id in store.table && IsTerminal(store.table[id].status) :: store.table[id];
    var order := Sort(rows, Finished);
    OrderedRows(rows, Finished, order);
    var fetched := if offset <= |order| then order[offset..Least(|order|, offset + limit + 1)] else [];
    next := if |fetched| > limit then Some(offset + limit) else None;
    var shown := fetched[..Least(|fetched|, limit)];
    assert forall k :: 0 <= k < |shown| ==> shown[k] in rows;
    var snapshots := store.snapshots;
    page := seq(|shown|, k requires 0 <= k < |shown| =>
      (shown[k], if shown[k] in snapshots then snapshots[shown[k]] else rows[shown[k]]));
    if store.InSync() {
      FinishedRows(store.table, store.snapshots);
      assert rows == Scoped(store.View(), Finished);
      assert forall k :: 0 <= k < |shown| ==> page[k] == (shown[k], store.View()[shown[k]]);
      FetchedIsPage(store.View(), order, offset, limit, page, next);
    }
  }

  /** Fetching one row more than the page has tells whether there is a next one. */
  lemma FetchedIsPage(view: map<JobId, Job>, order: seq<JobId>, offset: nat, limit: nat, page: seq<(JobId, Job)>,
                      next: Option<nat>)
    requires forall k :: 0 <= k < |order| ==> order[k] in view
    requires var fetched := if offset <= |order| then order[offset..Least(|order|, offset + limit + 1)] else [];
      var shown := fetched[..Least(|fetched|, limit)];
      && next == (if |fetched| > limit then Some(offset + limit) else None)
      && |page| == |shown|
      && forall k :: 0 <= k < |shown| ==> shown[k] in view && page[k] == (shown[k], view[shown[k]])
    ensures PageOf(view, order, offset, Some(limit), page, next)
  {
    if offset <= |order| {
      var end := PageEnd(|order|, offset, Some(limit));
      assert |page| == end - offset;
      forall k | 0 <= k < |page| ensures page[k] == Items(view, order[offset..end])[k] {
        assert order[offset..end][k] == order[offset + k];
      }
      assert page == Items(view, order[offset..end]);
    }
  }

  lemma OrderedRows(rows: map<JobId, Job>, scope: Scope, s: seq<JobId>)
    requires InOrder(rows, scope, s)
    ensures forall k :: 0 <= k < |s| ==> s[k] in rows
  {
  }

  /** While no write is lost, the finished rows are the finished jobs. */
  lemma FinishedRows(table: map<JobId, Job>, snapshots: map<JobId, Job>)
    requires snapshots.Keys <= table.Keys && forall id :: id in snapshots ==> InStep(table[id], snapshots[id])
    ensures (map id | id in table && IsTerminal(table[id].status) :: table[id]) == Scoped(table + snapshots, Finished)
    ensures forall id :: id in snapshots && IsTerminal(table[id].status) ==> snapshots[id] == table[id]
  {
    var rows := map id | id in table && IsTerminal(table[id].status) :: table[id];
    var scoped := Scoped(table + snapshots, Finished);
    forall id | id in table ensures id in rows <==> id in scoped {
      assert id in snapshots ==> InStep(table[id], snapshots[id]);
    }
    assert rows.Keys == scoped.Keys;
  }

  /**
   `list_page`: while no write is lost, a page is the stretch from its cursor of the merged view in
   order, in whatever scope and by whichever of the two ways, and the next cursor says where to go on.
   */
  method ListPage(store: Store, scope: Scope, limit: Option<nat>, offset: nat)
    returns (page: seq<(JobId, Job)>, next: Option<nat>)
    requires store.Valid() && (limit.Some? ==> 1 <= limit.value <= 200)
    ensures store.InSync() ==>
              PageIn(store.View(), Scoped(store.View(), scope), scope, offset, limit, page, next)
  {
    hide Comes, InOrder, PageOf, InStep, PageIn;
    if limit.Some? && scope.Finished? {
      page, next := FinishedPage(store, limit.value, offset);
      return;
    }
    var merged := store.List(scope);
    page, next := CutPage(merged, scope, limit, offset);
    if store.InSync() {
      PageOfScoped(store.View(), scope, offset, limit, page, next);
    }
  }

  /** jobs.py:1633-1661: sort what was merged, and cut the page out. */
  method CutPage(merged: map<JobId, Job>, scope: Scope, limit: Option<nat>, offset: nat)
    returns (page: seq<(JobId, Job)>, next: Option<nat>)
    ensures PageIn(merged, merged, scope, offset, limit, page, next)
  {
    hide Comes, InOrder;
    var items := Sort(merged, scope);
    OrderedRows(merged, scope, items);
    var end := if limit.None? then |items| else Least(|items|, offset + limit.value);
    page := if offset <= end then Items(merged, items[offset..end]) else [];
    next := if end < |items| then Some(end) else None;
    assert PageOf(merged, items, offset, limit, page, next);
  }

  lemma PageOfScoped(view: map<JobId, Job>, scope: Scope, offset: nat, limit: Option<nat>, page: seq<(JobId, Job)>,
                     next: Option<nat>)
    requires PageIn(Scoped(view, scope), Scoped(view, scope), scope, offset, limit, page, next)
    ensures PageIn(view, Scoped(view, scope), scope, offset, limit, page, next)
  {
    hide InOrder;
    var rows := Scoped(view, scope);
    var all :| InOrder(rows, scope, all) && PageOf(rows, all, offset, limit, page, next);
    assert PageOf(view, all, offset, limit, page, next);
  }
}

/**
 * The run index (reindex.py): the folders under `performance_tests` are
 * ordered newest first, the ones holding both `metadata.json` and
 * `report.html` become one card each, and the cards make up `index.html`.
 * The directory listing, file tests and parsed metadata are given as a
 * sequence of `Folder` values.
 */
module RunIndex {
  import opened Base

  /** A metadata value as `json.load` returns it: a number or a string. */
  datatype Json = JNum(n: int) | JStr(s: string)

  /** One entry of the directory listing, with what the file system says about it. */
  datatype Folder = Folder(
    name: string,
    mtime: int,
    hasMetadata: bool,
    hasReport: bool,
    metadata: map<string, Json>)

  /** One card of the index page. */
  datatype Card = Card(
    displayName: Json,
    serverUrl: Json,
    startSeconds: real,
    concurrentRequests: Json,
    duration: Json,
    link: string)

  /** Dividing a string start time by 1e9 raises `TypeError` and ends the script. */
  datatype IndexError = StartTimeNotNumber(folder: string)

  const NotAvailable := JStr("N/A")

  /** `metadata.get(key, 'N/A')`. */
  function Get(m: map<string, Json>, key: string): (v: Json)
    ensures key in m ==> v == m[key]
    ensures key !in m ==> v == NotAvailable
  {
    if key in m then m[key] else NotAvailable
  }

  // ---------------------------------------------------------------------
  // Ordering: newest first, equal times in listing order
  // ---------------------------------------------------------------------

  predicate NewestFirst(s: seq<Folder>)
  {
    forall i, j :: 0 <= i < j < |s| ==> s[i].mtime >= s[j].mtime
  }

  /** Where a stable newest-first sort puts `x` among the already sorted `s`: after every folder at least as new. */
  function InsertionPoint(s: seq<Folder>, x: Folder): (k: nat)
    ensures k <= |s|
    ensures forall i :: 0 <= i < k ==> s[i].mtime >= x.mtime
    ensures k < |s| ==> s[k].mtime < x.mtime
  {
    if s == [] || s[0].mtime < x.mtime then 0 else 1 + InsertionPoint(s[1..], x)
  }

  function Insert(s: seq<Folder>, x: Folder): seq<Folder>
  {
    var k := InsertionPoint(s, x);
    s[..k] + [x] + s[k..]
  }

  /**
   * `folders.sort(key=getmtime, reverse=True)` as a reference definition:
   * each folder of the listing in turn is inserted after the ones already
   * placed that are at least as new.
   */
  function SortNewestFirst(s: seq<Folder>): seq<Folder>
  {
    if s == [] then [] else Insert(SortNewestFirst(s[..|s|-1]), s[|s|-1])
  }

  /** The folders of `s` modified at time `t`, in the order of `s`. */
  function WithMtime(s: seq<Folder>, t: int): seq<Folder>
  {
    if s == [] then []
    else WithMtime(s[..|s|-1], t) + (if s[|s|-1].mtime == t then [s[|s|-1]] else [])
  }

  /** `WithMtime` keeps exactly the folders of time `t`. */
  lemma {:induction false} WithMtimeMembers(s: seq<Folder>, t: int)
    ensures forall f :: f in WithMtime(s, t) <==> f in s && f.mtime == t
  {
    if s != [] {
      WithMtimeMembers(s[..|s|-1], t);
      assert s == s[..|s|-1] + [s[|s|-1]];
    }
  }

  lemma InsertKeepsOrder(s: seq<Folder>, x: Folder)
    requires NewestFirst(s)
    ensures NewestFirst(Insert(s, x))
  {
    var k := InsertionPoint(s, x);
    var r := Insert(s, x);
    forall i, j | 0 <= i < j < |r|
      ensures r[i].mtime >= r[j].mtime
    {
      if j < k || i > k {
      } else if i == k {
        assert r[j] == s[j - 1];
      } else if j == k {
        assert r[i] == s[i] && r[j] == x;
      } else {
        assert r[i] == s[i] && r[j] == s[j - 1];
      }
    }
  }

  lemma {:induction false} SortedNewestFirst(s: seq<Folder>)
    ensures NewestFirst(SortNewestFirst(s))
  {
    if s != [] {
      SortedNewestFirst(s[..|s|-1]);
      InsertKeepsOrder(SortNewestFirst(s[..|s|-1]), s[|s|-1]);
    }
  }

  lemma {:induction false} SortIsPermutation(s: seq<Folder>)
    ensures multiset(SortNewestFirst(s)) == multiset(s)
  {
    if s != [] {
      var init, last := s[..|s|-1], s[|s|-1];
      SortIsPermutation(init);
      InsertAdds(SortNewestFirst(init), last);
      assert s == init + [last];
    }
  }

  lemma InsertAdds(s: seq<Folder>, x: Folder)
    ensures multiset(Insert(s, x)) == multiset(s) + multiset{x}
  {
    var k := InsertionPoint(s, x);
    assert s == s[..k] + s[k..];
  }

  lemma {:induction false} WithMtimeAppend(a: seq<Folder>, b: seq<Folder>, t: int)
    ensures WithMtime(a + b, t) == WithMtime(a, t) + WithMtime(b, t)
  {
    if b != [] {
      var init, last := b[..|b| - 1], b[|b| - 1];
      assert (a + b)[..|a + b| - 1] == a + init;
      assert (a + b)[|a + b| - 1] == last;
      WithMtimeAppend(a, init, t);
      var tail := if last.mtime == t then [last] else [];
      calc {
        WithMtime(a + b, t);
        WithMtime(a + init, t) + tail;
        WithMtime(a, t) + WithMtime(init, t) + tail;
        WithMtime(a, t) + (WithMtime(init, t) + tail);
      }
    } else {
      assert a + b == a;
    }
  }

  lemma {:induction false} WithMtimeNone(s: seq<Folder>, t: int)
    requires forall i :: 0 <= i < |s| ==> s[i].mtime < t
    ensures WithMtime(s, t) == []
  {
    if s != [] {
      WithMtimeNone(s[..|s|-1], t);
    }
  }

  lemma WithMtimeSplice(front: seq<Folder>, x: Folder, back: seq<Folder>, t: int)
    ensures WithMtime(front + [x] + back, t)
      == WithMtime(front, t) + (if x.mtime == t then [x] else []) + WithMtime(back, t)
  {
    WithMtimeAppend(front + [x], back, t);
    WithMtimeAppend(front, [x], t);
    assert [x][..0] == [];
  }

  /** Everything after the insertion point of a sorted sequence is older than `x`. */
  lemma OlderAfterInsertionPoint(s: seq<Folder>, x: Folder)
    requires NewestFirst(s)
    ensures forall i :: 0 <= i < |s[InsertionPoint(s, x)..]| ==> s[InsertionPoint(s, x)..][i].mtime < x.mtime
  {
    var k := InsertionPoint(s, x);
    forall i | 0 <= i < |s[k..]|
      ensures s[k..][i].mtime < x.mtime
    {
      assert s[k..][i] == s[k + i];
    }
  }

  /** Placing `x` in front of only older folders appends it to its time's group. */
  lemma StableSplice(front: seq<Folder>, x: Folder, back: seq<Folder>, t: int)
    requires forall i :: 0 <= i < |back| ==> back[i].mtime < x.mtime
    ensures WithMtime(front + [x] + back, t) == WithMtime(front + back, t) + (if x.mtime == t then [x] else [])
  {
    WithMtimeSplice(front, x, back, t);
    WithMtimeAppend(front, back, t);
    var wf, wb := WithMtime(front, t), WithMtime(back, t);
    if x.mtime == t {
      WithMtimeNone(back, t);
      assert wf + [x] + wb == wf + wb + [x];
    } else {
      assert wf + [] + wb == wf + wb + [];
    }
  }

  lemma InsertStable(s: seq<Folder>, x: Folder, t: int)
    requires NewestFirst(s)
    ensures WithMtime(Insert(s, x), t) == WithMtime(s, t) + (if x.mtime == t then [x] else [])
  {
    var k := InsertionPoint(s, x);
    assert s == s[..k] + s[k..];
    OlderAfterInsertionPoint(s, x);
    StableSplice(s[..k], x, s[k..], t);
  }

  /** Python's sort is stable: folders with equal times keep their listing order. */
  lemma {:induction false} SortIsStable(s: seq<Folder>, t: int)
    ensures WithMtime(SortNewestFirst(s), t) == WithMtime(s, t)
  {
    if s != [] {
      SortIsStable(s[..|s|-1], t);
      SortedNewestFirst(s[..|s|-1]);
      InsertStable(SortNewestFirst(s[..|s|-1]), s[|s|-1], t);
    }
  }

  /** The slot the shifting loop stops at is the insertion point. */
  lemma InsertionPointUnique(s: seq<Folder>, x: Folder, j: nat)
    requires NewestFirst(s) && j <= |s|
    requires forall i :: j <= i < |s| ==> s[i].mtime < x.mtime
    requires j == 0 || s[j - 1].mtime >= x.mtime
    ensures InsertionPoint(s, x) == j
  {
  }

  /** The contents left by the shifting loop once `x` is dropped into slot `j`. */
  lemma ShiftedIsInsert(s: seq<Folder>, x: Folder, j: nat, b: seq<Folder>)
    requires NewestFirst(s) && j <= |s| && |b| == |s| + 1
    requires forall i :: j <= i < |s| ==> s[i].mtime < x.mtime
    requires j == 0 || s[j - 1].mtime >= x.mtime
    requires forall k :: 0 <= k < j ==> b[k] == s[k]
    requires b[j] == x
    requires forall k :: j < k < |b| ==> b[k] == s[k - 1]
    ensures b == Insert(s, x)
  {
    InsertionPointUnique(s, x, j);
    assert b == s[..j] + [x] + s[j..];
  }

  /**
   * The shifting loop of one insertion pass: the folders of `a[..i]` older
   * than `x` move one slot right, leaving slot `j` free.
   */
  method ShiftOlder(a: array<Folder>, i: nat, x: Folder) returns (j: nat)
    requires i < a.Length
    modifies a
    ensures j <= i
    ensures forall k :: 0 <= k < j ==> a[k] == old(a[k])
    ensures forall k :: j < k <= i ==> a[k] == old(a[k - 1])
    ensures forall k :: i < k < a.Length ==> a[k] == old(a[k])
    ensures forall k :: j <= k < i ==> old(a[k]).mtime < x.mtime
    ensures j == 0 || old(a[j - 1]).mtime >= x.mtime
  {
    j := i;
    while j > 0 && a[j - 1].mtime < x.mtime
      invariant 0 <= j <= i
      invariant forall k :: 0 <= k < j ==> a[k] == old(a[k])
      invariant forall k :: j < k <= i ==> a[k] == old(a[k - 1])
      invariant forall k :: i < k < a.Length ==> a[k] == old(a[k])
      invariant forall k :: j <= k < i ==> old(a[k]).mtime < x.mtime
    {
      a[j] := a[j - 1];
      j := j - 1;
    }
  }

  /** One pass of insertion: `a[i]` moves left past the older folders of the sorted `a[..i]`. */
  method InsertAt(a: array<Folder>, i: nat)
    requires i < a.Length && NewestFirst(a[..i])
    modifies a
    ensures a[..i + 1] == Insert(old(a[..i]), old(a[i]))
    ensures a[i + 1..] == old(a[i + 1..])
  {
    ghost var sorted, after := a[..i], a[i + 1..];
    var x := a[i];
    var j := ShiftOlder(a, i, x);
    a[j] := x;
    ShiftedIsInsert(sorted, x, j, a[..i + 1]);
    assert a[i + 1..] == after;
  }

  /** `folders.sort(key=getmtime, reverse=True)` (reindex.py:22) in place, by insertion. */
  method SortFolders(a: array<Folder>)
    modifies a
    ensures a[..] == SortNewestFirst(old(a[..]))
  {
    ghost var listing := a[..];
    for i := 0 to a.Length
      invariant a[..i] == SortNewestFirst(listing[..i])
      invariant a[i..] == listing[i..]
    {
      assert listing[..i + 1][..i] == listing[..i];
      assert a[i] == listing[i];
      SortedNewestFirst(listing[..i]);
      InsertAt(a, i);
    }
    assert a[..] == a[..a.Length] && listing == listing[..a.Length];
  }

  // ---------------------------------------------------------------------
  // Cards
  // ---------------------------------------------------------------------

  /** The test `os.path.isfile(metadata_file) and os.path.isfile(report_file)`. */
  predicate Kept(f: Folder)
  {
    f.hasMetadata && f.hasReport
  }

  function ReportLink(name: string): string
  {
    "./" + name + "/report.html"
  }

  /** The card for a kept folder, or the error its start time raises. */
  function CardOf(f: Folder): (r: Result<Card, IndexError>)
    ensures r.Ok? <==> Get(f.metadata, "test_start_time").JNum?
    ensures r.Err? ==> r.error == StartTimeNotNumber(f.name)
    ensures r.Ok? ==>
      && r.value.link == ReportLink(f.name)
      && r.value.startSeconds * NanosPerSecond as real == f.metadata["test_start_time"].n as real
      && r.value.serverUrl == Get(f.metadata, "server_url")
      && r.value.displayName == Get(f.metadata, "test_display_name")
      && r.value.concurrentRequests == Get(f.metadata, "concurrent_requests")
      && r.value.duration == Get(f.metadata, "test_duration")
      && ("server_url" !in f.metadata ==> r.value.serverUrl == NotAvailable)
      && ("test_display_name" !in f.metadata ==> r.value.displayName == NotAvailable)
      && ("concurrent_requests" !in f.metadata ==> r.value.concurrentRequests == NotAvailable)
      && ("test_duration" !in f.metadata ==> r.value.duration == NotAvailable)
  {
    match Get(f.metadata, "test_start_time")
    case JStr(_) => Err(StartTimeNotNumber(f.name))
    case JNum(n) =>
      Ok(Card(
        Get(f.metadata, "test_display_name"),
        Get(f.metadata, "server_url"),
        n as real / NanosPerSecond as real,
        Get(f.metadata, "concurrent_requests"),
        Get(f.metadata, "test_duration"),
        ReportLink(f.name)))
  }

  /** The folders that yield a card, in visiting order. */
  function KeptFolders(fs: seq<Folder>): seq<Folder>
  {
    if fs == [] then []
    else KeptFolders(fs[..|fs|-1]) + (if Kept(fs[|fs|-1]) then [fs[|fs|-1]] else [])
  }

  /** The cards of the folders visited in order `fs`, stopping at the first error. */
  function IndexCards(fs: seq<Folder>): Result<seq<Card>, IndexError>
  {
    if fs == [] then Ok([])
    else
      var prev := IndexCards(fs[..|fs|-1]);
      var f := fs[|fs|-1];
      if prev.Err? || !Kept(f) then prev
      else match CardOf(f)
        case Err(e) => Err(e)
        case Ok(c) => Ok(prev.value + [c])
  }

  /** Visiting one more folder. */
  lemma IndexCardsStep(fs: seq<Folder>, i: nat)
    requires i < |fs|
    ensures IndexCards(fs[..i + 1]) ==
      if IndexCards(fs[..i]).Err? || !Kept(fs[i]) then IndexCards(fs[..i])
      else if CardOf(fs[i]).Err? then Err(CardOf(fs[i]).error)
      else Ok(IndexCards(fs[..i]).value + [CardOf(fs[i]).value])
  {
    assert fs[..i + 1][..i] == fs[..i];
  }

  /** Once a prefix has failed, so has every longer visit, with the same error. */
  lemma {:induction false} IndexCardsErrorSticks(fs: seq<Folder>, i: nat)
    requires i <= |fs| && IndexCards(fs[..i]).Err?
    ensures IndexCards(fs) == IndexCards(fs[..i])
  {
    if i < |fs| {
      assert fs[..|fs|-1][..i] == fs[..i];
      IndexCardsErrorSticks(fs[..|fs|-1], i);
      assert fs[..|fs|] == fs;
    } else {
      assert fs[..i] == fs;
    }
  }

  /**
   * The index holds one card per kept folder, in visiting order, each
   * built from that folder; skipped folders leave no trace.
   */
  lemma {:induction false} OneCardPerKeptFolder(fs: seq<Folder>)
    requires IndexCards(fs).Ok?
    ensures |IndexCards(fs).value| == |KeptFolders(fs)|
    ensures forall i :: 0 <= i < |KeptFolders(fs)| ==>
      CardOf(KeptFolders(fs)[i]) == Ok(IndexCards(fs).value[i])
  {
    if fs != [] {
      OneCardPerKeptFolder(fs[..|fs|-1]);
    }
  }

  /**
   * Building the index fails exactly when some kept folder's start time is
   * not a number, and then with the error of the first such folder.
   */
  lemma {:induction false} IndexFailsAtFirstBadStartTime(fs: seq<Folder>)
    ensures IndexCards(fs).Ok? <==> forall i :: 0 <= i < |fs| && Kept(fs[i]) ==> CardOf(fs[i]).Ok?
    ensures IndexCards(fs).Err? ==>
      exists i :: 0 <= i < |fs| && Kept(fs[i]) && CardOf(fs[i]).Err?
        && IndexCards(fs).error == CardOf(fs[i]).error
        && forall j :: 0 <= j < i && Kept(fs[j]) ==> CardOf(fs[j]).Ok?
  {
    if fs != [] {
      var init := fs[..|fs|-1];
      IndexFailsAtFirstBadStartTime(init);
      assert forall i :: 0 <= i < |init| ==> init[i] == fs[i];
      if IndexCards(init).Err? {
        var i :| 0 <= i < |init| && Kept(init[i]) && CardOf(init[i]).Err?
          && IndexCards(init).error == CardOf(init[i]).error
          && forall j :: 0 <= j < i && Kept(init[j]) ==> CardOf(init[j]).Ok?;
        assert Kept(fs[i]) && CardOf(fs[i]).Err?;
      }
    }
  }

  /** The kept folders are exactly the folders holding both files. */
  lemma {:induction false} KeptFoldersMembers(fs: seq<Folder>)
    ensures forall f :: f in KeptFolders(fs) <==> f in fs && Kept(f)
  {
    if fs != [] {
      KeptFoldersMembers(fs[..|fs|-1]);
      assert fs == fs[..|fs|-1] + [fs[|fs|-1]];
    }
  }

  /** Kept folders keep the newest-first order they were visited in. */
  lemma {:induction false} KeptFoldersNewestFirst(fs: seq<Folder>)
    requires NewestFirst(fs)
    ensures NewestFirst(KeptFolders(fs))
  {
    if fs != [] {
      var init, last := fs[..|fs|-1], fs[|fs|-1];
      assert NewestFirst(init);
      KeptFoldersNewestFirst(init);
      KeptFoldersMembers(init);
      var kept := KeptFolders(init);
      forall g | g in kept
        ensures g.mtime >= last.mtime
      {
        var i :| 0 <= i < |init| && init[i] == g;
        assert fs[i] == g;
      }
      if Kept(last) {
        var r := kept + [last];
        forall i, j | 0 <= i < j < |r|
          ensures r[i].mtime >= r[j].mtime
        {
          if j == |kept| {
            assert r[i] in kept;
          }
        }
      }
    }
  }

  /**
   * `reindex` (reindex.py:14-95): sort the listing newest first, then walk
   * it and append one card per folder holding both files.
   */
  method Reindex(listing: seq<Folder>) returns (r: Result<seq<Card>, IndexError>)
    ensures r == IndexCards(SortNewestFirst(listing))
  {
    var folders := new Folder[|listing|](i requires 0 <= i < |listing| => listing[i]);
    assert folders[..] == listing;
    SortFolders(folders);
    ghost var sorted := folders[..];
    assert sorted == SortNewestFirst(listing);
    var cards: seq<Card> := [];
    for i := 0 to folders.Length
      invariant folders[..] == sorted
      invariant IndexCards(folders[..i]) == Ok(cards)
    {
      IndexCardsStep(folders[..], i);
      assert folders[..][..i] == folders[..i] && folders[..][..i + 1] == folders[..i + 1];
      var f := folders[i];
      if f.hasMetadata && f.hasReport {
        var card := CardOf(f);
        if card.Err? {
          assert IndexCards(folders[..][..i + 1]) == Err(card.error);
          IndexCardsErrorSticks(folders[..], i + 1);
          assert IndexCards(folders[..]) == Err(card.error);
          return Err(card.error);
        }
        cards := cards + [card.value];
      }
    }
    assert folders[..] == folders[..folders.Length];
    r := Ok(cards);
  }
}

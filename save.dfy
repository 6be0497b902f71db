/**
 * Save slots: listing the save files in path order, padding the list with empty slots, naming
 * a new save, and the run condition of the save system.
 */
module Save {
  import opened Wrappers
  import Player

  const SaveDir: string := "saves"

  /** What a save file holds. */
  datatype SaveData = SaveData(playerHealth: Player.Health)

  datatype Save = Save(filename: string, path: Option<string>, data: Option<SaveData>)

  /** One entry of the save directory's listing, by file name; `ok` is false for an entry that could not be read. */
  datatype DirEntry = DirEntry(ok: bool, name: string, isFile: bool)

  function PathOf(name: string): string { SaveDir + "/" + name }

  // ---------------------------------------------------------------------------
  // File names

  /**
   * `Path::file_prefix` of a file name: everything before the first dot that is not the
   * leading character, the whole name when there is none, and ".." as it is.
   */
  function FilePrefix(name: string): (p: string)
    ensures p == name || (exists i :: 1 <= i < |name| && name[i] == '.' && p == name[..i])
    ensures p == name <==> name == ".." || forall i :: 1 <= i < |name| ==> name[i] != '.'
  {
    if name == ".." then name
    else match FirstDotAfterStart(name)
      case None => name
      case Some(i) => name[..i]
  }

  /** The first dot at index 1 or later. */
  function FirstDotAfterStart(name: string): (r: Option<nat>)
    ensures r.Some? ==> 1 <= r.value < |name| && name[r.value] == '.' && forall j :: 1 <= j < r.value ==> name[j] != '.'
    ensures r.None? ==> forall j :: 1 <= j < |name| ==> name[j] != '.'
  {
    DotFrom(name, 1)
  }

  function DotFrom(name: string, k: nat): (r: Option<nat>)
    ensures r.Some? ==> k <= r.value < |name| && name[r.value] == '.' && forall j :: k <= j < r.value ==> name[j] != '.'
    ensures r.None? ==> forall j :: k <= j < |name| ==> name[j] != '.'
    decreases |name| - k
  {
    if k >= |name| then None
    else if name[k] == '.' then Some(k)
    else DotFrom(name, k + 1)
  }

  /** The decimal digits of `n`, as Rust's `format!` writes them. */
  function NatToString(n: nat): (s: string)
    ensures |s| >= 1 && forall i :: 0 <= i < |s| ==> '0' <= s[i] <= '9'
    ensures (n < 10) <==> |s| == 1
    decreases n
  {
    if n < 10 then [Digit(n)] else NatToString(n / 10) + [Digit(n % 10)]
  }

  function Digit(d: nat): (c: char)
    requires d < 10
    ensures '0' <= c <= '9'
  {
    "0123456789"[d]
  }

  lemma DigitInjective(a: nat, b: nat)
    requires a < 10 && b < 10 && Digit(a) == Digit(b)
    ensures a == b
  {
  }

  /** Different numbers are written differently. */
  lemma {:induction false} NatToStringInjective(a: nat, b: nat)
    requires NatToString(a) == NatToString(b)
    ensures a == b
    decreases a
  {
    var s := NatToString(a);
    if a >= 10 && b >= 10 {
      assert s[..|s| - 1] == NatToString(a / 10) == NatToString(b / 10);
      assert s[|s| - 1] == Digit(a % 10) == Digit(b % 10);
      NatToStringInjective(a / 10, b / 10);
      DigitInjective(a % 10, b % 10);
    } else if a < 10 && b < 10 {
      DigitInjective(a, b);
    }
  }

  /** The file name of save number `k`. */
  function SaveFileName(k: nat): (name: string)
    ensures |name| >= 10 && name[..5] == "save_" && name[|name| - 4..] == ".bin"
    ensures forall j :: 5 <= j < |name| - 4 ==> '0' <= name[j] <= '9'
  {
    "save_" + NatToString(k) + ".bin"
  }

  /** The prefix of save number `k`'s name is `save_k`: the digits hold no dot. */
  lemma SaveFilePrefix(k: nat)
    ensures FilePrefix(SaveFileName(k)) == "save_" + NatToString(k)
  {
    var name := SaveFileName(k);
    var stem := "save_" + NatToString(k);
    assert name[|stem|] == '.';
    assert forall j :: 1 <= j < |stem| ==> name[j] == stem[j] && stem[j] != '.';
    assert name[..|stem|] == stem;
  }

  // ---------------------------------------------------------------------------
  // Sorting paths

  /** Lexicographic order on strings, by character code (for UTF-8 this is the byte order). */
  predicate LessEq(a: string, b: string)
    decreases |a|
  {
    if a == [] then true
    else if b == [] then false
    else if a[0] != b[0] then a[0] < b[0]
    else LessEq(a[1..], b[1..])
  }

  lemma {:induction false} LessEqTotal(a: string, b: string)
    ensures LessEq(a, b) || LessEq(b, a)
    decreases |a|
  {
    if a != [] && b != [] && a[0] == b[0] {
      LessEqTotal(a[1..], b[1..]);
    }
  }

  lemma {:induction false} LessEqTransitive(a: string, b: string, c: string)
    requires LessEq(a, b) && LessEq(b, c)
    ensures LessEq(a, c)
    decreases |a|
  {
    if a != [] && b != [] && c != [] && a[0] == b[0] && b[0] == c[0] {
      LessEqTransitive(a[1..], b[1..], c[1..]);
    }
  }

  predicate Sorted(s: seq<string>) {
    forall i, j :: 0 <= i < j < |s| ==> LessEq(s[i], s[j])
  }

  /** Put `x` into the sorted `s` before the first element it does not follow. */
  function Insert(x: string, s: seq<string>): (r: seq<string>)
    requires Sorted(s)
    ensures Sorted(r)
    ensures multiset(r) == multiset(s) + multiset{x}
    decreases |s|
  {
    if s == [] then [x]
    else if LessEq(x, s[0]) then
      InsertFront(x, s);
      [x] + s
    else
      LessEqTotal(x, s[0]);
      var rest := Insert(x, s[1..]);
      assert s == [s[0]] + s[1..];
      forall k | 0 <= k < |rest|
        ensures LessEq(s[0], rest[k])
      {
        assert rest[k] in multiset(rest);
        if rest[k] != x {
          assert rest[k] in multiset(s[1..]);
        }
      }
      InsertTail(s[0], rest);
      [s[0]] + rest
  }

  lemma InsertFront(x: string, s: seq<string>)
    requires Sorted(s) && s != [] && LessEq(x, s[0])
    ensures Sorted([x] + s)
  {
    forall j | 0 < j < |s| + 1
      ensures LessEq(x, ([x] + s)[j])
    {
      if j > 1 {
        LessEqTransitive(x, s[0], s[j - 1]);
      }
    }
  }

  lemma InsertTail(h: string, rest: seq<string>)
    requires Sorted(rest)
    requires forall k :: 0 <= k < |rest| ==> LessEq(h, rest[k])
    ensures Sorted([h] + rest)
  {
  }

  /** `saves.sort()`: the paths in order, the same paths. */
  function SortPaths(s: seq<string>): (r: seq<string>)
    ensures Sorted(r)
    ensures multiset(r) == multiset(s)
    ensures |r| == |s|
    decreases |s|
  {
    if s == [] then []
    else
      var sorted := SortPaths(s[..|s| - 1]);
      assert s == s[..|s| - 1] + [s[|s| - 1]];
      var r := Insert(s[|s| - 1], sorted);
      assert |r| == |multiset(r)|;
      r
  }

  // ---------------------------------------------------------------------------
  // Listing saves

  /** The readable entries that are files, in listing order. */
  function FileNames(entries: seq<DirEntry>): (r: seq<string>)
    ensures forall n :: n in r <==> exists i :: 0 <= i < |entries| && entries[i].ok && entries[i].isFile && entries[i].name == n
    decreases |entries|
  {
    if entries == [] then []
    else
      var e := entries[|entries| - 1];
      var init := entries[..|entries| - 1];
      assert forall i :: 0 <= i < |init| ==> init[i] == entries[i];
      FileNames(init) + (if e.ok && e.isFile then [e.name] else [])
  }

  function SaveOf(name: string): Save {
    Save(FilePrefix(name), Some(PathOf(name)), None)
  }

  /**
   * `get_saves`: one save per readable file of the save directory, sorted by path, each named
   * by its file prefix and holding no data yet; no saves when the directory cannot be read.
   */
  function GetSaves(listing: Option<seq<DirEntry>>): (r: seq<Save>)
    ensures listing.None? ==> r == []
    ensures listing.Some? ==> |r| == |FileNames(listing.value)|
    ensures listing.Some? ==> exists names ::
      && Sorted(names) && multiset(names) == multiset(FileNames(listing.value)) && |names| == |r|
      && forall i :: 0 <= i < |r| ==> r[i] == SaveOf(names[i])
  {
    match listing
    case None => []
    case Some(entries) =>
      var names := SortPaths(FileNames(entries));
      seq(|names|, i requires 0 <= i < |names| => SaveOf(names[i]))
  }

  /** Sorting by the whole path is sorting by file name, as every save lies in the same directory. */
  lemma {:induction false} PathOrderIsNameOrder(a: string, b: string)
    ensures LessEq(PathOf(a), PathOf(b)) <==> LessEq(a, b)
  {
    var prefix := SaveDir + "/";
    assert PathOf(a) == prefix + a && PathOf(b) == prefix + b;
    CommonPrefix(prefix, a, b);
  }

  lemma {:induction false} CommonPrefix(p: string, a: string, b: string)
    ensures LessEq(p + a, p + b) <==> LessEq(a, b)
    decreases |p|
  {
    if p != [] {
      assert (p + a)[0] == p[0] == (p + b)[0];
      assert (p + a)[1..] == p[1..] + a;
      assert (p + b)[1..] == p[1..] + b;
      assert LessEq(p + a, p + b) == LessEq(p[1..] + a, p[1..] + b);
      CommonPrefix(p[1..], a, b);
    } else {
      assert p + a == a && p + b == b;
    }
  }

  // ---------------------------------------------------------------------------
  // New saves and save slots

  /** `new_save` as written: number the new save by how many saves exist. */
  function NewSave(listing: Option<seq<DirEntry>>): (s: Save)
    ensures s.path == Some(PathOf(SaveFileName(|GetSaves(listing)|)))
    ensures s.filename == "save_" + NatToString(|GetSaves(listing)|)
    ensures s.data == None
  {
    var name := SaveFileName(|GetSaves(listing)|);
    SaveFilePrefix(|GetSaves(listing)|);
    Save(FilePrefix(name), Some(PathOf(name)), None)
  }

  /**
   * With save 1 deleted, saves 0 and 2 remain: there are two saves, so the new save is
   * numbered 2 and overwrites the existing save 2.
   */
  lemma NewSaveOverwrites()
    ensures var listing := Some([DirEntry(true, SaveFileName(0), true), DirEntry(true, SaveFileName(2), true)]);
      NewSave(listing).path.value in (set s | s in GetSaves(listing) :: s.path.value)
  {
    var listing := Some([DirEntry(true, SaveFileName(0), true), DirEntry(true, SaveFileName(2), true)]);
    var files := [SaveFileName(0), SaveFileName(2)];
    assert FileNames(listing.value) == files;
    var r := GetSaves(listing);
    assert |r| == 2;
    var names := SortPaths(files);
    assert SaveFileName(2) in multiset(names);
    var i :| 0 <= i < |names| && names[i] == SaveFileName(2);
    assert r[i] == SaveOf(SaveFileName(2));
  }

  /** The number of the new save: the smallest one whose file does not exist yet. */
  method FreeSaveNumber(existing: seq<string>) returns (k: nat)
    ensures SaveFileName(k) !in existing
    ensures forall j :: 0 <= j < k ==> SaveFileName(j) in existing
  {
    k := 0;
    ghost var seen: set<string> := {};
    var names := set n | n in existing;
    while SaveFileName(k) in existing
      invariant seen == set j | 0 <= j < k :: SaveFileName(j)
      invariant |seen| == k && seen <= names && k <= |names|
      invariant forall j :: 0 <= j < k ==> SaveFileName(j) in existing
      decreases |names| - k
    {
      assert SaveFileName(k) !in seen by {
        forall j | 0 <= j < k
          ensures SaveFileName(j) != SaveFileName(k)
        {
          SaveFileNameInjective(j, k);
          assert j != k;
        }
      }
      SeqSetCard(existing);
      seen := seen + {SaveFileName(k)};
      SubsetCard(seen, names);
      k := k + 1;
      assert seen == set j | 0 <= j < k :: SaveFileName(j);
    }
  }

  lemma SaveFileNameInjective(a: nat, b: nat)
    ensures SaveFileName(a) == SaveFileName(b) <==> a == b
  {
    if SaveFileName(a) == SaveFileName(b) {
      var sa := NatToString(a);
      var sb := NatToString(b);
      assert |sa| == |sb|;
      assert sa == SaveFileName(a)[5..5 + |sa|];
      assert sb == SaveFileName(b)[5..5 + |sb|];
      NatToStringInjective(a, b);
    }
  }

  lemma {:induction false} SubsetCard(a: set<string>, b: set<string>)
    requires a <= b
    ensures |a| <= |b|
    decreases |a|
  {
    if a != {} {
      var x :| x in a;
      SubsetCard(a - {x}, b - {x});
    }
  }

  lemma SeqSetCard(s: seq<string>)
    ensures |set n | n in s| <= |s|
  {
    if s != [] {
      SeqSetCard(s[1..]);
      assert (set n | n in s) == (set n | n in s[1..]) + {s[0]};
    }
  }

  /** `new_save` with the number chosen so that no existing save is overwritten. */
  method NewFreshSave(listing: Option<seq<DirEntry>>) returns (s: Save)
    ensures s.path.Some? && forall e :: e in GetSaves(listing) ==> e.path != s.path
    ensures exists k :: s == Save("save_" + NatToString(k), Some(PathOf(SaveFileName(k))), None)
  {
    var existing := if listing.Some? then FileNames(listing.value) else [];
    var k := FreeSaveNumber(existing);
    SaveFilePrefix(k);
    s := Save(FilePrefix(SaveFileName(k)), Some(PathOf(SaveFileName(k))), None);
    forall e | e in GetSaves(listing)
      ensures e.path != s.path
    {
      var saves := GetSaves(listing);
      var i :| 0 <= i < |saves| && saves[i] == e;
      var names := SortPaths(existing);
      assert names[i] in multiset(existing);
      assert e.path == Some(PathOf(names[i]));
      assert names[i] != SaveFileName(k);
      assert PathOf(names[i])[6..] == names[i];
      assert PathOf(SaveFileName(k))[6..] == SaveFileName(k);
    }
  }

  /** An empty slot at the end of the list. */
  const EmptySlot := Save("New Save", None, None)

  /**
   * `SaveSlots::new(length)`: the existing saves, unchanged and first, then empty slots up to
   * `length`; never shorter than the existing list.
   */
  method NewSlots(listing: Option<seq<DirEntry>>, length: nat) returns (saves: seq<Save>)
    ensures |saves| == if |GetSaves(listing)| < length then length else |GetSaves(listing)|
    ensures saves[..|GetSaves(listing)|] == GetSaves(listing)
    ensures forall i :: |GetSaves(listing)| <= i < |saves| ==> saves[i] == EmptySlot
  {
    saves := GetSaves(listing);
    var existing := |saves|;
    var newSaves: seq<Save> := [];
    for i := existing to if existing < length then length else existing
      invariant |newSaves| == i - existing
      invariant forall k :: 0 <= k < |newSaves| ==> newSaves[k] == EmptySlot
    {
      newSaves := newSaves + [EmptySlot];
    }
    saves := saves + newSaves;
  }

  // ---------------------------------------------------------------------------
  // Save events

  /** The pending `SaveEvent`s. */
  class SaveEvents {
    var pending: nat

    constructor()
      ensures pending == 0
    {
      pending := 0;
    }

    method Send()
      modifies this
      ensures pending == old(pending) + 1
    {
      pending := pending + 1;
    }

    /** `on_save_event`: run the save system exactly when an event is pending, consuming all of them. */
    method OnSaveEvent() returns (run: bool)
      modifies this
      ensures run <==> old(pending) > 0
      ensures pending == 0
    {
      if pending == 0 {
        run := false;
      } else {
        pending := 0;
        run := true;
      }
    }
  }
}

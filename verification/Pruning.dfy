/**
 * Pruning old log files (tracing-appender/src/rolling.rs). A directory is a map
 * from names to files; the clock, the order in which a directory is listed, and the success of
 * file-system calls are inputs.
 */
module Pruning {
  import opened Options
  import opened Calendar
  import opened Rotations
  import opened LogNames
  import opened Bytes

  /** `created` is what the file system says, if it says anything. */
  datatype File = File(regular: bool, utf8Name: bool, created: Option<int>, content: seq<byte>)

  type Dir = map<string, File>

  /** The age that pruning goes by: the creation time, or else the date in the name. */
  function AgeOf(c: Config, name: string, f: File): Option<int> {
    if f.created.Some? then f.created
    else
      var t := ParseDateFromFilename(name, DateFormat(c.rotation), c.prefix, c.suffix);
      if t.Some? then Some(t.value.Timestamp()) else None
  }

  /** Files that `prune_old_logs` takes into account. */
  predicate Eligible(c: Config, dir: Dir, name: string) {
    && name in dir
    && dir[name].regular && dir[name].utf8Name
    && PassesNameFilter(c, name)
    && AgeOf(c, name, dir[name]).Some?
  }

  datatype Aged = Aged(name: string, age: int)

  /** The eligible files in the order of the listing. */
  function Candidates(c: Config, dir: Dir, listing: seq<string>): seq<Aged> {
    if listing == [] then []
    else
      var init, name := Candidates(c, dir, listing[..|listing| - 1]), listing[|listing| - 1];
      if Eligible(c, dir, name) then init + [Aged(name, AgeOf(c, name, dir[name]).value)] else init
  }

  // `sort_by_key`: a stable sort by age

  function Insert(xs: seq<Aged>, x: Aged): seq<Aged> {
    if xs == [] || xs[|xs| - 1].age <= x.age then xs + [x]
    else Insert(xs[..|xs| - 1], x) + [xs[|xs| - 1]]
  }

  function SortByAge(xs: seq<Aged>): seq<Aged> {
    if xs == [] then [] else Insert(SortByAge(xs[..|xs| - 1]), xs[|xs| - 1])
  }

  ghost predicate Sorted(xs: seq<Aged>) {
    forall i, j :: 0 <= i < j < |xs| ==> xs[i].age <= xs[j].age
  }

  ghost predicate Distinct(xs: seq<Aged>) {
    forall i, j :: 0 <= i < j < |xs| ==> xs[i].name != xs[j].name
  }

  lemma {:induction false} InsertSorts(xs: seq<Aged>, x: Aged)
    requires Sorted(xs)
    ensures Sorted(Insert(xs, x)) && |Insert(xs, x)| == |xs| + 1
    ensures forall y :: y in Insert(xs, x) <==> y in xs || y == x
  {
    if xs != [] && xs[|xs| - 1].age > x.age {
      var init, last := xs[..|xs| - 1], xs[|xs| - 1];
      assert xs == init + [last];
      InsertSorts(init, x);
      var ys := Insert(init, x);
      assert forall i :: 0 <= i < |ys| ==> ys[i] in ys;
    }
  }

  lemma {:induction false} InsertKeepsDistinct(xs: seq<Aged>, x: Aged)
    requires Sorted(xs) && Distinct(xs) && x.name !in NamesOf(xs)
    ensures Distinct(Insert(xs, x))
  {
    if xs != [] && xs[|xs| - 1].age > x.age {
      var init, last := xs[..|xs| - 1], xs[|xs| - 1];
      assert xs == init + [last];
      InsertSorts(init, x);
      InsertKeepsDistinct(init, x);
      var ys := Insert(init, x);
      forall i | 0 <= i < |ys| ensures ys[i].name != last.name {
        assert ys[i] in ys;
      }
    }
  }

  lemma {:induction false} SortSorts(xs: seq<Aged>)
    ensures Sorted(SortByAge(xs)) && |SortByAge(xs)| == |xs|
    ensures forall x :: x in SortByAge(xs) <==> x in xs
    ensures Distinct(xs) ==> Distinct(SortByAge(xs))
  {
    if xs != [] {
      var init, last := xs[..|xs| - 1], xs[|xs| - 1];
      SortSorts(init);
      InsertSorts(SortByAge(init), last);
      assert xs == init + [last];
      if Distinct(xs) { InsertKeepsDistinct(SortByAge(init), last); }
    }
  }

  /** The files that pruning deletes: the oldest, so that one fewer than `max` is left. */
  function Victims(c: Config, dir: Dir, listing: seq<string>, max: nat): seq<Aged>
    requires max >= 1
  {
    var files := Candidates(c, dir, listing);
    if |files| < max then []
    else
      SortSorts(files);
      SortByAge(files)[..|files| - (max - 1)]
  }

  function NamesOf(xs: seq<Aged>): set<string> {
    set x <- xs :: x.name
  }

  function PrunedDir(c: Config, dir: Dir, listing: seq<string>, max: nat, undeletable: set<string>): Dir
    requires max >= 1
  {
    dir - (NamesOf(Victims(c, dir, listing, max)) - undeletable)
  }

  /** A listing shows every file once. */
  ghost predicate Lists(dir: Dir, listing: seq<string>) {
    && (forall name :: name in dir <==> name in listing)
    && (forall i, j :: 0 <= i < j < |listing| ==> listing[i] != listing[j])
  }

  lemma {:induction false} CandidatesAreEligible(c: Config, dir: Dir, listing: seq<string>)
    requires forall i, j :: 0 <= i < j < |listing| ==> listing[i] != listing[j]
    ensures
      var xs := Candidates(c, dir, listing);
      && (forall x <- xs :: x.name in listing && Eligible(c, dir, x.name) && Some(x.age) == AgeOf(c, x.name, dir[x.name]))
      && (forall name <- listing :: Eligible(c, dir, name) ==> name in NamesOf(xs))
      && Distinct(xs)
  {
    if listing != [] {
      var init, name := listing[..|listing| - 1], listing[|listing| - 1];
      CandidatesAreEligible(c, dir, init);
      assert listing == init + [name];
      assert name !in init;
      var xs, ys := Candidates(c, dir, init), Candidates(c, dir, listing);
      if Eligible(c, dir, name) {
        assert ys[|xs|].name == name && ys[|xs|] in ys;
        assert forall x :: x in xs ==> x in ys;
      }
    }
  }

  lemma NamesCount(xs: seq<Aged>)
    requires Distinct(xs)
    ensures |NamesOf(xs)| == |xs|
  {
    if xs == [] {
      assert NamesOf(xs) == {};
    } else {
      var init, last := xs[..|xs| - 1], xs[|xs| - 1];
      NamesCount(init);
      assert xs == init + [last];
      assert last.name !in NamesOf(init);
      assert NamesOf(xs) == NamesOf(init) + {last.name};
    }
  }

  function EligibleNames(c: Config, dir: Dir): set<string> {
    set name <- dir | Eligible(c, dir, name)
  }

  /** The sorted candidates: the victims, and behind them the files to keep. */
  lemma VictimsAndKept(c: Config, dir: Dir, listing: seq<string>, max: nat)
    returns (gone: seq<Aged>, kept: seq<Aged>)
    requires max >= 1 && Lists(dir, listing)
    ensures Sorted(gone + kept) && Distinct(gone + kept) && Victims(c, dir, listing, max) == gone
    ensures NamesOf(gone) + NamesOf(kept) == EligibleNames(c, dir)
    ensures forall x :: x in gone || x in kept ==> Eligible(c, dir, x.name) && Some(x.age) == AgeOf(c, x.name, dir[x.name])
    ensures |gone| + |kept| < max ==> gone == []
    ensures |gone| + |kept| >= max ==> |kept| == max - 1
  {
    var files := Candidates(c, dir, listing);
    CandidatesAreEligible(c, dir, listing);
    SortSorts(files);
    var sorted := SortByAge(files);
    var k := if |sorted| < max then 0 else |sorted| - (max - 1);
    gone, kept := sorted[..k], sorted[k..];
    assert sorted == gone + kept;
    assert forall x :: x in sorted <==> x in gone || x in kept;
  }

  lemma Apart(gone: seq<Aged>, kept: seq<Aged>)
    requires Sorted(gone + kept) && Distinct(gone + kept)
    ensures NamesOf(gone) !! NamesOf(kept)
    ensures |NamesOf(kept)| == |kept| && |NamesOf(gone)| == |gone|
    ensures forall x <- gone, y <- kept :: x.age <= y.age
  {
    var all := gone + kept;
    assert forall i :: 0 <= i < |gone| ==> all[i] == gone[i];
    assert forall j :: 0 <= j < |kept| ==> all[|gone| + j] == kept[j];
    assert Distinct(gone) && Distinct(kept);
    NamesCount(gone);
    NamesCount(kept);
  }

  /**
   * If the deletions succeed, at most `max - 1` eligible files are left; only eligible files go,
   * none while there are fewer than `max`; and no file that stays is older than one that goes.
   */
  lemma PruneKeepsTheNewest(c: Config, dir: Dir, listing: seq<string>, max: nat)
    requires max >= 1 && Lists(dir, listing)
    ensures
      var dir' := PrunedDir(c, dir, listing, max, {});
      var before := EligibleNames(c, dir);
      && EligibleNames(c, dir') <= before
      && |EligibleNames(c, dir')| == (if |before| < max then |before| else max - 1)
      && (forall name <- dir :: name !in before ==> name in dir')
      && (forall name <- dir' :: name in dir && dir'[name] == dir[name])
  {
    var gone, kept := VictimsAndKept(c, dir, listing, max);
    Apart(gone, kept);
    var dir' := PrunedDir(c, dir, listing, max, {});
    assert EligibleNames(c, dir') == NamesOf(kept);
    assert |NamesOf(gone) + NamesOf(kept)| == |gone| + |kept|;
  }

  lemma PruneTakesTheOldest(c: Config, dir: Dir, listing: seq<string>, max: nat, undeletable: set<string>, gone: string, kept: string)
    requires max >= 1 && Lists(dir, listing)
    requires gone in dir && gone !in PrunedDir(c, dir, listing, max, undeletable)
    requires kept in PrunedDir(c, dir, listing, max, undeletable) && Eligible(c, dir, kept) && kept !in undeletable
    ensures Eligible(c, dir, gone)
    ensures AgeOf(c, gone, dir[gone]).value <= AgeOf(c, kept, dir[kept]).value
  {
    var g, k := VictimsAndKept(c, dir, listing, max);
    Apart(g, k);
    assert gone in NamesOf(g);
    assert kept in NamesOf(k);
    var x :| x in g && x.name == gone;
    var y :| y in k && y.name == kept;
  }

  /** Whatever is removed is a regular file whose name starts with the prefix and ends with the suffix,
      or with neither configured is a date; and its age was known. */
  lemma RemovedAreLogs(c: Config, dir: Dir, listing: seq<string>, max: nat, undeletable: set<string>, name: string)
    requires max >= 1 && Lists(dir, listing) && name in dir && name !in PrunedDir(c, dir, listing, max, undeletable)
    ensures dir[name].regular && dir[name].utf8Name && name !in undeletable
    ensures c.prefix.Some? ==> |c.prefix.value| <= |name| && name[..|c.prefix.value|] == c.prefix.value
    ensures c.suffix.Some? ==> |c.suffix.value| <= |name| && name[|name| - |c.suffix.value|..] == c.suffix.value
    ensures c.prefix.None? && c.suffix.None? ==> ParseDate(DateFormat(c.rotation), name).Some?
    ensures dir[name].created.Some?
            || ParseDateFromFilename(name, DateFormat(c.rotation), c.prefix, c.suffix).Some?
  {
    var gone, kept := VictimsAndKept(c, dir, listing, max);
    var x :| x in gone && x.name == name;
    assert Eligible(c, dir, x.name);
  }

  /** Of two log files with creation times the later one is not removed unless the earlier one is, or cannot be. */
  lemma EarlierGoesFirst(c: Config, dir: Dir, listing: seq<string>, max: nat, undeletable: set<string>, earlier: string, later: string)
    requires max >= 1 && Lists(dir, listing) && earlier in dir && later in dir && Eligible(c, dir, earlier)
    requires dir[earlier].created.Some? && dir[later].created.Some?
    requires dir[earlier].created.value < dir[later].created.value
    requires later !in PrunedDir(c, dir, listing, max, undeletable)
    ensures earlier !in PrunedDir(c, dir, listing, max, undeletable) || earlier in undeletable
  {
    if earlier in PrunedDir(c, dir, listing, max, undeletable) && earlier !in undeletable {
      PruneTakesTheOldest(c, dir, listing, max, undeletable, later, earlier);
    }
  }

  /** Without a creation time the age of an own file is the start of its period, read off the name. */
  lemma AgeFromName(c: Config, t: Time, f: File)
    requires !c.rotation.Never? && t.Valid() && Representable(RoundDate(c.rotation, t)) && f.created.None?
    ensures AgeOf(c, JoinDate(c, t), f) == Some(RoundDate(c.rotation, t).Timestamp())
  {
    NameRoundTrip(c, t);
  }

  /** Every regular file that a rotating appender made is a candidate, whatever its age. */
  lemma OwnFilesAreEligible(c: Config, t: Time, dir: Dir)
    requires !c.rotation.Never? && t.Valid() && Representable(RoundDate(c.rotation, t))
    requires JoinDate(c, t) in dir && dir[JoinDate(c, t)].regular && dir[JoinDate(c, t)].utf8Name
    ensures Eligible(c, dir, JoinDate(c, t))
  {
    OwnNamesPassFilter(c, t);
  }
}

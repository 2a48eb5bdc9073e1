/** The bounded rotating content sample: a run of the sorted eligible files after a retained cursor. */
module Sampler {
  import opened Wrappers

  type Name = seq<bv8>

  datatype Entry = Entry(name: Name, regular: bool, hardlink: bool, lossy: bool, size: nat)

  const ARGUMENT_BYTES := 65536

  /** A sample's budgets; both are positive. */
  datatype Budget = Budget(bytes: nat, files: nat) {
    predicate Valid() { bytes > 0 && files > 0 }
  }

  // ------------------------------------------------------------- the order

  /** Byte order, a prefix first. */
  predicate Less(a: Name, b: Name)
    decreases |a|
  {
    b != [] && (a == [] || a[0] < b[0] || (a[0] == b[0] && Less(a[1..], b[1..])))
  }

  lemma {:induction false} LessIsTransitive(a: Name, b: Name, c: Name)
    requires Less(a, b) && Less(b, c)
    ensures Less(a, c)
    decreases |a|
  {
    if a != [] && a[0] == b[0] && b[0] == c[0] {
      LessIsTransitive(a[1..], b[1..], c[1..]);
    }
  }

  lemma {:induction false} LessIsStrict(a: Name)
    ensures !Less(a, a)
    decreases |a|
  {
    if a != [] {
      LessIsStrict(a[1..]);
    }
  }

  /** The names agree up to some byte, and there `a` ends or has the smaller one. */
  ghost predicate PrecedesAt(a: Name, b: Name, k: nat) {
    k <= |a| && k < |b| && a[..k] == b[..k] && (k == |a| || a[k] < b[k])
  }

  lemma {:induction false} LessIff(a: Name, b: Name)
    ensures Less(a, b) <==> exists k: nat :: PrecedesAt(a, b, k)
    decreases |a|
  {
    if a != [] && b != [] && a[0] == b[0] {
      LessIff(a[1..], b[1..]);
      if k: nat :| PrecedesAt(a[1..], b[1..], k) {
        assert a[..k + 1] == [a[0]] + a[1..][..k] && b[..k + 1] == [b[0]] + b[1..][..k];
        assert PrecedesAt(a, b, k + 1);
      }
      if k: nat :| PrecedesAt(a, b, k) {
        assert k > 0 && a[1..][..k - 1] == a[..k][1..] && b[1..][..k - 1] == b[..k][1..];
        assert PrecedesAt(a[1..], b[1..], k - 1);
      }
    } else if Less(a, b) {
      assert a[..0] == [] && b[..0] == [];
      assert PrecedesAt(a, b, 0);
    } else {
      forall k: nat ensures !PrecedesAt(a, b, k) {
        assert 0 < k <= |a| && k < |b| ==> a[..k][0] == a[0] && b[..k][0] == b[0];
      }
    }
  }

  predicate Eligible(entry: Entry, budget: Budget) {
    entry.regular && !entry.hardlink && !entry.lossy && 0 < entry.size <= budget.bytes
  }

  /** The eligible entries in order; a path names one entry and is not empty. */
  ghost predicate Population(files: seq<Entry>, budget: Budget) {
    && (forall i :: 0 <= i < |files| ==> Eligible(files[i], budget) && files[i].name != [])
    && (forall i, j :: 0 <= i < j < |files| ==> Less(files[i].name, files[j].name))
  }

  // -------------------------------------------------------- one pass

  /** The index of the first file after a cursor. */
  function After(files: seq<Entry>, cursor: Option<Name>): nat {
    if files == [] then 0
    else if Less(if cursor.Some? then cursor.value else [], files[0].name) then 0
    else 1 + After(files[1..], cursor)
  }

  /** How many of the rows a pass selects, with what is left of each budget. */
  function Chosen(rows: seq<Entry>, bytes: nat, arguments: nat, files: nat): nat
    decreases |rows|
  {
    if rows == [] || files == 0 || rows[0].size > bytes || |rows[0].name| > arguments then 0
    else 1 + Chosen(rows[1..], bytes - rows[0].size, arguments - |rows[0].name|, files - 1)
  }

  function Size(rows: seq<Entry>): nat {
    if rows == [] then 0 else rows[0].size + Size(rows[1..])
  }

  function Length(rows: seq<Entry>): nat {
    if rows == [] then 0 else |rows[0].name| + Length(rows[1..])
  }

  /** The first `n` rows are within the budgets. */
  predicate Within(rows: seq<Entry>, n: nat, bytes: nat, arguments: nat, files: nat) {
    n <= |rows| && n <= files && Size(rows[..n]) <= bytes && Length(rows[..n]) <= arguments
  }

  lemma WithinCons(rows: seq<Entry>, n: nat, bytes: nat, arguments: nat, files: nat)
    requires 0 < n <= |rows|
    ensures Within(rows, n, bytes, arguments, files) <==>
      && files > 0 && rows[0].size <= bytes && |rows[0].name| <= arguments
      && Within(rows[1..], n - 1, bytes - rows[0].size, arguments - |rows[0].name|, files - 1)
  {
    assert rows[..n][1..] == rows[1..][..n - 1];
  }

  /** A pass selects the longest run that every budget admits. */
  lemma {:induction false} ChosenIsLongest(rows: seq<Entry>, bytes: nat, arguments: nat, files: nat, n: nat)
    requires n <= |rows|
    ensures Within(rows, n, bytes, arguments, files) <==> n <= Chosen(rows, bytes, arguments, files)
    decreases |rows|
  {
    if n == 0 {
      assert rows[..0] == [];
    } else {
      WithinCons(rows, n, bytes, arguments, files);
      if files > 0 && rows[0].size <= bytes && |rows[0].name| <= arguments {
        ChosenIsLongest(rows[1..], bytes - rows[0].size, arguments - |rows[0].name|, files - 1, n - 1);
      }
    }
  }

  /** The rows that the query returns: at most four times the file budget. */
  function Rows(files: seq<Entry>, start: nat, budget: Budget): seq<Entry> {
    if start > |files| then []
    else if |files| - start > 4 * budget.files then files[start..start + 4 * budget.files]
    else files[start..]
  }

  /** Where a pass starts in the population and how many files it samples. */
  datatype Pass = Pass(start: nat, count: nat, wrapped: bool)

  function Sample(files: seq<Entry>, budget: Budget, cursor: Option<Name>): Pass {
    var at := After(files, cursor);
    var wrapped := cursor.Some? && cursor.value != [] && Rows(files, at, budget) == [];
    var start := if wrapped then 0 else at;
    Pass(start, Chosen(Rows(files, start, budget), budget.bytes, ARGUMENT_BYTES, budget.files), wrapped)
  }

  lemma {:induction false} ChosenOfPrefix(rows: seq<Entry>, n: nat, bytes: nat, arguments: nat, files: nat)
    requires files <= n <= |rows|
    ensures Chosen(rows[..n], bytes, arguments, files) == Chosen(rows, bytes, arguments, files)
    decreases |rows|
  {
    if n > 0 && files > 0 && rows[0].size <= bytes && |rows[0].name| <= arguments {
      ChosenOfPrefix(rows[1..], n - 1, bytes - rows[0].size, arguments - |rows[0].name|, files - 1);
      assert rows[..n][1..] == rows[1..][..n - 1];
    }
  }

  /** The query's row limit never decides how many files are sampled. */
  lemma LimitIsLoose(files: seq<Entry>, start: nat, budget: Budget)
    requires start <= |files|
    ensures Chosen(Rows(files, start, budget), budget.bytes, ARGUMENT_BYTES, budget.files)
         == Chosen(files[start..], budget.bytes, ARGUMENT_BYTES, budget.files)
  {
    if |files| - start > 4 * budget.files {
      ChosenOfPrefix(files[start..], 4 * budget.files, budget.bytes, ARGUMENT_BYTES, budget.files);
      assert files[start..][..4 * budget.files] == files[start..start + 4 * budget.files];
    }
  }

  /** The cursor that a receipt retains at this position. */
  function At(files: seq<Entry>, position: nat): Option<Name>
    requires position <= |files|
  {
    if position == 0 then None else Some(files[position - 1].name)
  }

  /** A cursor at a sampled file resumes right behind it; no cursor resumes at the beginning. */
  lemma {:induction false} AfterCursor(files: seq<Entry>, budget: Budget, k: nat)
    requires Population(files, budget) && k <= |files|
    ensures After(files, At(files, k)) == k
  {
    var cursor := At(files, k);
    if files != [] && k > 0 {
      var rest := files[1..];
      assert Population(rest, budget);
      if k == 1 {
        LessIsStrict(files[0].name);
        AfterLess(rest, budget, cursor);
      } else {
        if Less(files[k - 1].name, files[0].name) {
          LessIsTransitive(files[0].name, files[k - 1].name, files[0].name);
          LessIsStrict(files[0].name);
        }
        AfterCursor(rest, budget, k - 1);
        assert rest[k - 2] == files[k - 1];
      }
    }
  }

  lemma AfterLess(files: seq<Entry>, budget: Budget, cursor: Option<Name>)
    requires cursor.Some? && (files != [] ==> Less(cursor.value, files[0].name))
    ensures After(files, cursor) == 0
  {}

  /** What the passes rely on: positive budgets, files within the byte budget, and cursors that resume
      where they left off. */
  ghost predicate Located(files: seq<Entry>, budget: Budget) {
    && budget.Valid()
    && (forall i :: 0 <= i < |files| ==> files[i].size <= budget.bytes && files[i].name != [])
    && (forall k :: 0 <= k <= |files| ==> After(files, At(files, k)) == k)
  }

  lemma PopulationIsLocated(files: seq<Entry>, budget: Budget)
    requires Population(files, budget) && budget.Valid()
    ensures Located(files, budget)
  {
    forall k | 0 <= k <= |files| ensures After(files, At(files, k)) == k {
      AfterCursor(files, budget, k);
    }
  }

  // ----------------------------------------------------- passes in a row

  /** A sample of nothing is refused, and the cursor of the receipt before it stays. */
  function Retained(files: seq<Entry>, budget: Budget, cursor: Option<Name>): Option<Name> {
    var pass := Sample(files, budget, cursor);
    if pass.count == 0 || pass.start + pass.count > |files| then cursor
    else Some(files[pass.start + pass.count - 1].name)
  }

  /** The next so many passes over the same population. */
  function Passes(files: seq<Entry>, budget: Budget, cursor: Option<Name>, n: nat): seq<Pass>
    decreases n
  {
    if n == 0 then []
    else [Sample(files, budget, cursor)] + Passes(files, budget, Retained(files, budget, cursor), n - 1)
  }

  /** The passes sample the files from one index to another, each exactly once and in order. */
  predicate Tiles(passes: seq<Pass>, from: nat, to: nat)
    decreases |passes|
  {
    if passes == [] then from == to
    else passes[0].start == from && passes[0].count > 0 && Tiles(passes[1..], from + passes[0].count, to)
  }

  predicate Samples(pass: Pass, i: nat) {
    pass.start <= i < pass.start + pass.count
  }

  predicate NoneSamples(passes: seq<Pass>, i: nat)
    decreases |passes|
  {
    passes == [] || (!Samples(passes[0], i) && NoneSamples(passes[1..], i))
  }

  lemma NoneCons(pass: Pass, passes: seq<Pass>, i: nat)
    ensures NoneSamples([pass] + passes, i) <==> !Samples(pass, i) && NoneSamples(passes, i)
  {
    assert ([pass] + passes)[1..] == passes;
  }

  predicate Fits(entry: Entry) {
    |entry.name| <= ARGUMENT_BYTES
  }

  ghost predicate AllFit(files: seq<Entry>) {
    forall i :: 0 <= i < |files| ==> Fits(files[i])
  }

  /** From any position a pass samples the longest run that the budgets admit, from there or, at the end,
      from the beginning; it samples something exactly when the first name there fits the argument limit. */
  lemma SampleIsARun(files: seq<Entry>, budget: Budget, position: nat)
    requires Located(files, budget) && position <= |files| && files != []
    ensures var pass := Sample(files, budget, At(files, position));
      && pass.start == (if position == |files| then 0 else position)
      && pass.start + pass.count <= |files|
      && (forall n :: 0 <= n <= |files| - pass.start ==>
            (Within(files[pass.start..], n, budget.bytes, ARGUMENT_BYTES, budget.files) <==> n <= pass.count))
      && (pass.count > 0 <==> Fits(files[pass.start]))
  {
    assert After(files, At(files, position)) == position;
    var start := if position == |files| then 0 else position;
    LimitIsLoose(files, start, budget);
    var rows := files[start..];
    forall n | 0 <= n <= |rows|
      ensures Within(rows, n, budget.bytes, ARGUMENT_BYTES, budget.files)
         <==> n <= Chosen(rows, budget.bytes, ARGUMENT_BYTES, budget.files)
    {
      ChosenIsLongest(rows, budget.bytes, ARGUMENT_BYTES, budget.files, n);
    }
    ChosenBound(rows, budget.bytes, ARGUMENT_BYTES, budget.files);
  }

  lemma {:induction false} ChosenBound(rows: seq<Entry>, bytes: nat, arguments: nat, files: nat)
    ensures Chosen(rows, bytes, arguments, files) <= |rows|
    decreases |rows|
  {
    if rows != [] && files > 0 && rows[0].size <= bytes && |rows[0].name| <= arguments {
      ChosenBound(rows[1..], bytes - rows[0].size, arguments - |rows[0].name|, files - 1);
    }
  }

  /** Where the cursor stands after a pass from a position. */
  function Onward(pass: Pass, position: nat): nat {
    if pass.count == 0 then position else pass.start + pass.count
  }

  /** Passes in a row, when the pass from each position is given. */
  function InRow(passAt: nat -> Pass, position: nat, n: nat): seq<Pass>
    decreases n
  {
    if n == 0 then [] else [passAt(position)] + InRow(passAt, Onward(passAt(position), position), n - 1)
  }

  lemma TilesCons(pass: Pass, passes: seq<Pass>, to: nat)
    requires pass.count > 0 && Tiles(passes, pass.start + pass.count, to)
    ensures Tiles([pass] + passes, pass.start, to)
  {
    assert ([pass] + passes)[1..] == passes;
  }

  /** Passes that each start where the cursor stands and sample something reach the end. */
  lemma {:induction false} RowReachesEnd(passAt: nat -> Pass, size: nat, position: nat) returns (n: nat)
    requires forall p | 0 <= p < size :: passAt(p).start == p && passAt(p).count > 0 && p + passAt(p).count <= size
    requires position <= size
    ensures Tiles(InRow(passAt, position, n), position, size)
    decreases size - position
  {
    if position == size {
      n := 0;
    } else {
      var pass := passAt(position);
      var rest := RowReachesEnd(passAt, size, position + pass.count);
      TilesCons(pass, InRow(passAt, position + pass.count, rest), size);
      n := rest + 1;
    }
  }

  lemma {:induction false} RowNeverSamples(passAt: nat -> Pass, size: nat, position: nat, n: nat, i: nat)
    requires forall p | 0 <= p <= size :: !Samples(passAt(p), i) && Onward(passAt(p), p) <= size
    requires position <= size
    ensures NoneSamples(InRow(passAt, position, n), i)
    decreases n
  {
    if n > 0 {
      var next := Onward(passAt(position), position);
      RowNeverSamples(passAt, size, next, n - 1, i);
      NoneCons(passAt(position), InRow(passAt, next, n - 1), i);
    }
  }

  lemma {:induction false} TilesCover(passes: seq<Pass>, from: nat, to: nat, i: nat)
    requires Tiles(passes, from, to) && from <= i < to
    ensures !NoneSamples(passes, i)
    decreases |passes|
  {
    if !Samples(passes[0], i) {
      TilesCover(passes[1..], from + passes[0].count, to, i);
    }
  }

  function PassAt(files: seq<Entry>, budget: Budget): nat -> Pass {
    (position: nat) => if position <= |files| then Sample(files, budget, At(files, position)) else Pass(0, 0, false)
  }

  lemma {:induction false} PassesAreInRow(files: seq<Entry>, budget: Budget, position: nat, n: nat)
    requires Located(files, budget) && position <= |files| && files != []
    ensures Passes(files, budget, At(files, position), n) == InRow(PassAt(files, budget), position, n)
    decreases n
  {
    if n > 0 {
      SampleIsARun(files, budget, position);
      var next := Onward(Sample(files, budget, At(files, position)), position);
      assert Retained(files, budget, At(files, position)) == At(files, next);
      PassesAreInRow(files, budget, next, n - 1);
    }
  }

  lemma {:induction false} UnfitIsNotWithin(rows: seq<Entry>, i: nat, n: nat, bytes: nat, arguments: nat, files: nat)
    requires i < n <= |rows| && |rows[i].name| > arguments
    ensures !Within(rows, n, bytes, arguments, files)
  {
    WithinCons(rows, n, bytes, arguments, files);
    if i > 0 && |rows[0].name| <= arguments && rows[0].size <= bytes && files > 0 {
      UnfitIsNotWithin(rows[1..], i - 1, n - 1, bytes - rows[0].size, arguments - |rows[0].name|, files - 1);
    }
  }

  lemma UnfitIsNotInPass(files: seq<Entry>, budget: Budget, position: nat, i: nat)
    requires Located(files, budget) && position <= |files|
    requires i < |files| && !Fits(files[i])
    ensures var pass := Sample(files, budget, At(files, position));
            !Samples(pass, i) && Onward(pass, position) <= |files|
  {
    SampleIsARun(files, budget, position);
    var pass := Sample(files, budget, At(files, position));
    if Samples(pass, i) {
      UnfitIsNotWithin(files[pass.start..], i - pass.start, pass.count, budget.bytes, ARGUMENT_BYTES, budget.files);
    }
  }

  /** The passes from no cursor sample every file exactly once. */
  ghost predicate Fair(files: seq<Entry>, budget: Budget, n: nat) {
    Tiles(Passes(files, budget, None, n), 0, |files|)
  }

  lemma FitIsFair(files: seq<Entry>, budget: Budget) returns (n: nat)
    requires Located(files, budget) && AllFit(files)
    ensures Fair(files, budget, n)
  {
    if files == [] {
      n := 0;
    } else {
      var passAt := PassAt(files, budget);
      forall p | 0 <= p < |files|
        ensures passAt(p).start == p && passAt(p).count > 0 && p + passAt(p).count <= |files|
      {
        SampleIsARun(files, budget, p);
      }
      n := RowReachesEnd(passAt, |files|, 0);
      PassesAreInRow(files, budget, 0, n);
    }
  }

  /** A file whose name exceeds the argument limit is never sampled. */
  lemma UnfitIsNeverSampled(files: seq<Entry>, budget: Budget, position: nat, n: nat, i: nat)
    requires Located(files, budget) && position <= |files| && i < |files| && !Fits(files[i])
    ensures NoneSamples(Passes(files, budget, At(files, position), n), i)
  {
    var passAt := PassAt(files, budget);
    forall p | 0 <= p <= |files| ensures !Samples(passAt(p), i) && Onward(passAt(p), p) <= |files| {
      UnfitIsNotInPass(files, budget, p, i);
    }
    RowNeverSamples(passAt, |files|, position, n, i);
    PassesAreInRow(files, budget, position, n);
  }

  /** Successive passes from no cursor sample every eligible file exactly once before they wrap, if and only
      if every eligible name fits the argument limit. */
  lemma FairIffAllFit(files: seq<Entry>, budget: Budget)
    requires Population(files, budget) && budget.Valid()
    ensures (exists n :: Fair(files, budget, n)) <==> AllFit(files)
  {
    PopulationIsLocated(files, budget);
    if AllFit(files) {
      var n := FitIsFair(files, budget);
    } else {
      UnfitIsUnfair(files, budget);
    }
  }

  lemma UnfitIsUnfair(files: seq<Entry>, budget: Budget)
    requires Located(files, budget) && !AllFit(files)
    ensures forall n :: !Fair(files, budget, n)
  {
    var i :| 0 <= i < |files| && !Fits(files[i]);
    forall n ensures !Fair(files, budget, n) {
      UnfitIsNeverSampled(files, budget, 0, n, i);
      if Fair(files, budget, n) {
        TilesCover(Passes(files, budget, At(files, 0), n), 0, |files|, i);
      }
    }
  }

  /** Once the cursor stands before an unfit name, no later pass samples anything. */
  lemma {:induction false} UnfitWedges(files: seq<Entry>, budget: Budget, position: nat, n: nat)
    requires Located(files, budget) && position < |files| && !Fits(files[position])
    ensures forall pass :: pass in Passes(files, budget, At(files, position), n) ==> pass.count == 0
    decreases n
  {
    if n > 0 {
      SampleIsARun(files, budget, position);
      UnfitWedges(files, budget, position, n - 1);
    }
  }

  // ------------------------------------------------- what a walk can find

  /** The walk reads each path's status by its name, and the system refuses a longer name than this. */
  const LONGEST_PATH := 4096

  /** The eligible entries that a walk can find. */
  ghost predicate Walked(files: seq<Entry>, budget: Budget) {
    Population(files, budget) && forall i :: 0 <= i < |files| ==> |files[i].name| <= LONGEST_PATH
  }

  /** From every position the passes reach every file. */
  lemma {:induction false} RowReaches(passAt: nat -> Pass, size: nat, position: nat, i: nat) returns (n: nat)
    requires forall p | 0 <= p <= size ::
      && passAt(p).start == (if p == size then 0 else p)
      && passAt(p).count > 0 && passAt(p).start + passAt(p).count <= size
    requires position <= size && i < size
    ensures !NoneSamples(InRow(passAt, position, n), i)
    decreases if position <= i then i - position else size - position + i + 1
  {
    var pass := passAt(position);
    var next, rest := Onward(pass, position), 0;
    if !Samples(pass, i) {
      rest := RowReaches(passAt, size, next, i);
    }
    n := rest + 1;
    NoneCons(pass, InRow(passAt, next, rest), i);
  }

  /** Any cursor, also one of another population, acts like the position it falls on. */
  lemma CursorIsPosition(files: seq<Entry>, budget: Budget, cursor: Option<Name>)
    requires Located(files, budget) && files != [] && AllFit(files)
    ensures var k := After(files, cursor);
            && k <= |files| && Sample(files, budget, cursor) == Sample(files, budget, At(files, k))
            && Retained(files, budget, cursor) == Retained(files, budget, At(files, k))
  {
    AfterBound(files, cursor);
    var k := After(files, cursor);
    SampleIsARun(files, budget, k);
  }

  lemma {:induction false} AfterBound(files: seq<Entry>, cursor: Option<Name>)
    ensures After(files, cursor) <= |files|
    ensures (cursor == None || cursor == Some([])) && files != [] && files[0].name != [] ==> After(files, cursor) == 0
    decreases |files|
  {
    if files != [] {
      AfterBound(files[1..], cursor);
    }
  }

  /** The sampler is fair to everything a walk can find: from no cursor the passes sample every eligible
      file exactly once before they wrap, and from any cursor every eligible file is reached. */
  lemma WalkedIsFair(files: seq<Entry>, budget: Budget, cursor: Option<Name>, i: nat)
    requires Walked(files, budget) && budget.Valid() && i < |files|
    ensures exists n :: Fair(files, budget, n)
    ensures exists n :: !NoneSamples(Passes(files, budget, cursor, n), i)
  {
    FairIffAllFit(files, budget);
    PopulationIsLocated(files, budget);
    var passAt := PassAt(files, budget);
    forall p | 0 <= p <= |files|
      ensures passAt(p).start == (if p == |files| then 0 else p)
      ensures passAt(p).count > 0 && passAt(p).start + passAt(p).count <= |files|
    {
      SampleIsARun(files, budget, p);
    }
    CursorIsPosition(files, budget, cursor);
    var k := After(files, cursor);
    var n := RowReaches(passAt, |files|, k, i);
    PassesAreInRow(files, budget, k, n);
    if n > 0 {
      assert Passes(files, budget, cursor, n) == Passes(files, budget, At(files, k), n);
    }
    assert !NoneSamples(Passes(files, budget, cursor, n), i);
  }

  /** The sorted query's answer: every regular file of the inventory that is no hard link, has an addressable name and
      is neither empty nor over the byte budget, in byte order of the names. */
  ghost predicate Answers(inventory: set<Entry>, files: seq<Entry>, budget: Budget) {
    && (forall entry :: entry in files <==>
          && entry in inventory && entry.regular && !entry.hardlink && !entry.lossy
          && entry.size > 0 && entry.size <= budget.bytes)
    && (forall i, j :: 0 <= i < j < |files| ==> exists k: nat :: PrecedesAt(files[i].name, files[j].name, k))
  }

  /** From any cursor, every such file of an inventory that a walk can find is sampled by some later pass. */
  lemma InventoryIsSampled(inventory: set<Entry>, files: seq<Entry>, budget: Budget, cursor: Option<Name>, entry: Entry)
    requires Answers(inventory, files, budget) && budget.Valid()
    requires forall other :: other in inventory ==> 0 < |other.name| <= LONGEST_PATH
    requires entry in inventory && entry.regular && !entry.hardlink && !entry.lossy && 0 < entry.size <= budget.bytes
    ensures exists i, n :: 0 <= i < |files| && files[i] == entry && !NoneSamples(Passes(files, budget, cursor, n), i)
  {
    forall i | 0 <= i < |files| ensures files[i] in inventory && Eligible(files[i], budget) {
      assert files[i] in files;
    }
    forall i, j | 0 <= i < j < |files| ensures Less(files[i].name, files[j].name) {
      LessIff(files[i].name, files[j].name);
    }
    assert entry in files;
    var i :| 0 <= i < |files| && files[i] == entry;
    WalkedIsFair(files, budget, cursor, i);
  }

  /** An empty cursor is no cursor. */
  lemma EmptyCursorIsNone(files: seq<Entry>, budget: Budget)
    ensures Sample(files, budget, Some([])) == Sample(files, budget, None)
  {
    EmptyAfter(files);
  }

  lemma {:induction false} EmptyAfter(files: seq<Entry>)
    ensures After(files, Some([])) == After(files, None)
  {
    if files != [] {
      EmptyAfter(files[1..]);
    }
  }

  /** One file whose name is a byte too long is enough. */
  lemma OneLongNameIsUnfair()
    ensures var name := seq(ARGUMENT_BYTES + 1, _ => 97 as bv8);
            var files := [Entry(name, true, false, false, 1)];
            Population(files, Budget(1, 1)) && forall n :: !Fair(files, Budget(1, 1), n)
  {
    var name := seq(ARGUMENT_BYTES + 1, _ => 97 as bv8);
    var files := [Entry(name, true, false, false, 1)];
    assert |name| == ARGUMENT_BYTES + 1 && !Fits(files[0]);
    FairIffAllFit(files, Budget(1, 1));
  }

  // ------------------------------------------------- the code's own form

  /** The selection over the rows of one query. */
  method Select(rows: seq<Entry>, budget: Budget) returns (selected: nat, cursor: Option<Name>, examined: nat)
    requires budget.Valid() && forall i :: 0 <= i < |rows| ==> Eligible(rows[i], budget)
    ensures selected == examined == Chosen(rows, budget.bytes, ARGUMENT_BYTES, budget.files) <= |rows|
    ensures cursor == if selected == 0 then None else Some(rows[selected - 1].name)
  {
    var bytes, arguments := 0, 0;
    selected, cursor, examined := 0, None, 0;
    for i := 0 to |rows|
      invariant selected == examined == i < budget.files && bytes <= budget.bytes && arguments <= ARGUMENT_BYTES
      invariant Chosen(rows, budget.bytes, ARGUMENT_BYTES, budget.files)
             == i + Chosen(rows[i..], budget.bytes - bytes, ARGUMENT_BYTES - arguments, budget.files - i)
      invariant cursor == if i == 0 then None else Some(rows[i - 1].name)
    {
      var entry, previous := rows[i], cursor;
      assert rows[i..][0] == entry && rows[i..][1..] == rows[i + 1..];
      examined, cursor := examined + 1, Some(entry.name);
      if entry.size > budget.bytes - bytes || arguments + |entry.name| > ARGUMENT_BYTES {
        cursor, examined := previous, examined - 1;
        break;
      }
      selected, bytes, arguments := selected + 1, bytes + entry.size, arguments + |entry.name|;
      if selected == budget.files {
        break;
      }
    }
  }

  /** One sampled audit: the run it samples and the cursor its receipt carries. */
  method SampleOnce(files: seq<Entry>, budget: Budget, after: Option<Name>) returns (pass: Pass, next: Option<Name>)
    requires Population(files, budget) && budget.Valid()
    ensures pass == Sample(files, budget, after)
    ensures pass.count <= |Rows(files, pass.start, budget)|
    ensures next == if pass.count == 0 then None else Some(Rows(files, pass.start, budget)[pass.count - 1].name)
  {
    var start := After(files, after);
    var rows := Rows(files, start, budget);
    var wrapped := after.Some? && after.value != [] && rows == [];
    if wrapped {
      start := 0;
      rows := Rows(files, start, budget);
    }
    var selected, cursor, examined := Select(rows, budget);
    pass := Pass(start, selected, wrapped);
    next := if examined > 0 then cursor else None;
  }
}

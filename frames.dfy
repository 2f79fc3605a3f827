/** The part of a pandas DataFrame that the core relies on: labelled columns
    of equal length, lookup by label, assignment of a whole column, and the
    `str.title` renaming of labels. */
module Frames {
  import opened Common

  datatype Column<T> = Column(name: string, cells: seq<T>)

  /** Every column has `rows` cells. */
  predicate Rectangular<T>(cols: seq<Column<T>>, rows: nat)
  {
    forall k :: 0 <= k < |cols| ==> |cols[k].cells| == rows
  }

  function Names<T>(cols: seq<Column<T>>): (ns: seq<string>)
    ensures |ns| == |cols| && forall k :: 0 <= k < |cols| ==> ns[k] == cols[k].name
  {
    seq(|cols|, k requires 0 <= k < |cols| => cols[k].name)
  }

  /** How many columns carry the label. */
  function Count<T>(cols: seq<Column<T>>, name: string): (n: nat)
    ensures n <= |cols|
    ensures n == 0 <==> name !in Names(cols)
    decreases |cols|
  {
    if |cols| == 0 then 0
    else Count(cols[..|cols| - 1], name) + (if cols[|cols| - 1].name == name then 1 else 0)
  }

  /** Position of the first column with the label. */
  function IndexOf<T>(cols: seq<Column<T>>, name: string): (k: nat)
    requires name in Names(cols)
    ensures k < |cols| && cols[k].name == name
    ensures forall j :: 0 <= j < k ==> cols[j].name != name
  {
    if cols[0].name == name then 0
    else
      assert Names(cols[1..]) == Names(cols)[1..];
      1 + IndexOf(cols[1..], name)
  }

  /** `frame[name]`: a missing label raises KeyError. A label that several
      columns share returns a sub-frame in pandas; the model reports it. */
  function Find<T>(cols: seq<Column<T>>, name: string): (r: Result<seq<T>>)
    ensures r == Err(KeyError(name)) <==> name !in Names(cols)
    ensures r == Err(DuplicateColumn(name)) <==> Count(cols, name) > 1
    ensures r.Ok? <==> Count(cols, name) == 1
    ensures r.Ok? ==> exists k :: 0 <= k < |cols| && cols[k].name == name && r.value == cols[k].cells
  {
    if name !in Names(cols) then Err(KeyError(name))
    else if Count(cols, name) > 1 then Err(DuplicateColumn(name))
    else Ok(cols[IndexOf(cols, name)].cells)
  }

  /** `frame[name] = cells`: every column with the label is replaced in
      place, or a new column is appended on the right. */
  function SetColumn<T>(cols: seq<Column<T>>, name: string, cells: seq<T>): (r: seq<Column<T>>)
    ensures name in Names(cols) ==> |r| == |cols|
    ensures name !in Names(cols) ==> |r| == |cols| + 1 && r[|cols|] == Column(name, cells)
    ensures forall k :: 0 <= k < |cols| ==> r[k].name == cols[k].name
    ensures forall k :: 0 <= k < |cols| && cols[k].name != name ==> r[k] == cols[k]
    ensures forall k :: 0 <= k < |r| && r[k].name == name ==> r[k].cells == cells
  {
    if name in Names(cols) then
      seq(|cols|, k requires 0 <= k < |cols| => if cols[k].name == name then Column(name, cells) else cols[k])
    else cols + [Column(name, cells)]
  }

  /** A second assignment to the same label overrides the first. */
  lemma SetColumnTwice<T>(cols: seq<Column<T>>, name: string, first: seq<T>, second: seq<T>)
    ensures SetColumn(SetColumn(cols, name, first), name, second) == SetColumn(cols, name, second)
  {
    var once := SetColumn(cols, name, first);
    assert name in Names(once) by {
      SetColumnCount(cols, name, first);
    }
    var a := SetColumn(once, name, second);
    var b := SetColumn(cols, name, second);
    assert |a| == |b|;
    forall k | 0 <= k < |a| ensures a[k] == b[k] {
      if k < |cols| {
        assert once[k].name == cols[k].name;
      }
    }
  }

  /** After the assignment the label names exactly one column, or as many as
      before if it was already there. */
  lemma SetColumnCount<T>(cols: seq<Column<T>>, name: string, cells: seq<T>)
    ensures name in Names(SetColumn(cols, name, cells))
    ensures forall other :: other != name ==> Count(SetColumn(cols, name, cells), other) == Count(cols, other)
  {
    var r := SetColumn(cols, name, cells);
    if name in Names(cols) {
      forall other | other != name ensures Count(r, other) == Count(cols, other) {
        CountSameNames(cols, r, other);
      }
    } else {
      assert r[|cols|].name == name;
      assert r[..|r| - 1] == cols;
    }
  }

  lemma {:induction false} CountSameNames<T, U>(a: seq<Column<T>>, b: seq<Column<U>>, name: string)
    requires |a| == |b| && forall k :: 0 <= k < |a| ==> a[k].name == b[k].name
    ensures Count(a, name) == Count(b, name)
    decreases |a|
  {
    if |a| > 0 {
      CountSameNames(a[..|a| - 1], b[..|b| - 1], name);
    }
  }

  lemma SetColumnRectangular<T>(cols: seq<Column<T>>, rows: nat, name: string, cells: seq<T>)
    requires Rectangular(cols, rows) && |cells| == rows
    ensures Rectangular(SetColumn(cols, name, cells), rows)
  {
  }

  /** Assigning one label leaves the lookup of every other label unchanged. */
  lemma FindOther<T>(cols: seq<Column<T>>, name: string, cells: seq<T>, other: string)
    requires other != name
    ensures Find(SetColumn(cols, name, cells), other) == Find(cols, other)
  {
    var r := SetColumn(cols, name, cells);
    SetColumnCount(cols, name, cells);
    if Count(cols, other) == 1 {
      var ka := IndexOf(cols, other);
      var kb := IndexOf(r, other);
      assert r[ka].name == other;
      assert kb < |cols| && cols[kb].name == other;
    }
  }

  /** Index of the first label whose lookup fails, or |names| if none does. */
  function FirstFailure<T>(cols: seq<Column<T>>, names: seq<string>): (i: nat)
    ensures i <= |names|
    ensures forall j :: 0 <= j < i ==> Find(cols, names[j]).Ok?
    ensures i < |names| ==> Find(cols, names[i]).Err?
    decreases |names|
  {
    if |names| == 0 then 0
    else if Find(cols, names[0]).Err? then 0
    else 1 + FirstFailure(cols, names[1..])
  }

  /** Look the labels up in order; the first failing lookup raises. */
  function FindAll<T>(cols: seq<Column<T>>, names: seq<string>): (r: Result<seq<seq<T>>>)
    ensures r.Ok? <==> forall i :: 0 <= i < |names| ==> Find(cols, names[i]).Ok?
    ensures r.Ok? ==> |r.value| == |names| && forall i :: 0 <= i < |names| ==> Find(cols, names[i]) == Ok(r.value[i])
  {
    var i := FirstFailure(cols, names);
    if i < |names| then Err(Find(cols, names[i]).error)
    else Ok(seq(|names|, j requires 0 <= j < |names| => Find(cols, names[j]).value))
  }

  /** Lookups of labels other than the assigned one are unaffected. */
  lemma FindAllOther<T>(cols: seq<Column<T>>, name: string, cells: seq<T>, names: seq<string>)
    requires name !in names
    ensures FindAll(SetColumn(cols, name, cells), names) == FindAll(cols, names)
  {
    var r := SetColumn(cols, name, cells);
    forall j | 0 <= j < |names| ensures Find(r, names[j]) == Find(cols, names[j]) {
      FindOther(cols, name, cells, names[j]);
    }
    FindAllSame(r, cols, names);
  }

  /** FindAll depends only on the lookups of its labels. */
  lemma FindAllSame<T>(a: seq<Column<T>>, b: seq<Column<T>>, names: seq<string>)
    requires forall j :: 0 <= j < |names| ==> Find(a, names[j]) == Find(b, names[j])
    ensures FindAll(a, names) == FindAll(b, names)
  {
    FirstFailureSame(a, b, names);
    var i := FirstFailure(a, names);
    if i == |names| {
      assert FindAll(a, names).value == FindAll(b, names).value;
    }
  }

  lemma {:induction false} FirstFailureSame<T>(a: seq<Column<T>>, b: seq<Column<T>>, names: seq<string>)
    requires forall j :: 0 <= j < |names| ==> Find(a, names[j]) == Find(b, names[j])
    ensures FirstFailure(a, names) == FirstFailure(b, names)
    decreases |names|
  {
    if |names| > 0 {
      FirstFailureSame(a, b, names[1..]);
    }
  }

  /** Successive assignments `frame[u.name] = u.cells`, in order. Existing
      labels stay in place, columns no update names are left alone, and only
      assigned labels are appended. */
  function SetColumns<T>(cols: seq<Column<T>>, updates: seq<Column<T>>): (r: seq<Column<T>>)
    ensures |cols| <= |r| <= |cols| + |updates|
    ensures forall k :: 0 <= k < |cols| ==> r[k].name == cols[k].name
    ensures forall k :: 0 <= k < |cols| && cols[k].name !in Names(updates) ==> r[k] == cols[k]
    ensures forall k :: |cols| <= k < |r| ==> r[k].name in Names(updates)
    decreases |updates|
  {
    if |updates| == 0 then cols
    else
      var last := updates[|updates| - 1];
      assert Names(updates) == Names(updates[..|updates| - 1]) + [last.name];
      SetColumn(SetColumns(cols, updates[..|updates| - 1]), last.name, last.cells)
  }

  lemma {:induction false} SetColumnsRectangular<T>(cols: seq<Column<T>>, updates: seq<Column<T>>, rows: nat)
    requires Rectangular(cols, rows) && Rectangular(updates, rows)
    ensures Rectangular(SetColumns(cols, updates), rows)
    decreases |updates|
  {
    if |updates| > 0 {
      SetColumnsRectangular(cols, updates[..|updates| - 1], rows);
    }
  }

  /** Every assigned label is present afterwards. */
  lemma {:induction false} SetColumnsPresent<T>(cols: seq<Column<T>>, updates: seq<Column<T>>)
    ensures forall n :: n in Names(updates) ==> n in Names(SetColumns(cols, updates))
    decreases |updates|
  {
    if |updates| > 0 {
      var p := updates[..|updates| - 1];
      var last := updates[|updates| - 1];
      SetColumnsPresent(cols, p);
      var prev := SetColumns(cols, p);
      var r := SetColumns(cols, updates);
      assert Names(updates) == Names(p) + [last.name];
      SetColumnCount(prev, last.name, last.cells);
      forall n | n in Names(updates) ensures n in Names(r) {
        if n != last.name {
          var k :| 0 <= k < |prev| && prev[k].name == n;
          assert r[k].name == n;
        }
      }
    }
  }

  /** With distinct assigned labels, each labelled column holds its cells. */
  lemma {:induction false} SetColumnsCells<T>(cols: seq<Column<T>>, updates: seq<Column<T>>)
    requires forall i, j :: 0 <= i < j < |updates| ==> updates[i].name != updates[j].name
    ensures forall i, k ::
      0 <= i < |updates| && 0 <= k < |SetColumns(cols, updates)| && SetColumns(cols, updates)[k].name == updates[i].name
      ==> SetColumns(cols, updates)[k].cells == updates[i].cells
    decreases |updates|
  {
    if |updates| > 0 {
      var p := updates[..|updates| - 1];
      SetColumnsCells(cols, p);
    }
  }

  // ---- str.title on labels ----

  predicate IsLetter(c: char)
  {
    'a' <= c <= 'z' || 'A' <= c <= 'Z'
  }

  function Upper(c: char): (u: char)
    ensures IsLetter(u) == IsLetter(c)
  {
    if 'a' <= c <= 'z' then (c as int - 32) as char else c
  }

  function Lower(c: char): (l: char)
    ensures IsLetter(l) == IsLetter(c)
  {
    if 'A' <= c <= 'Z' then (c as int + 32) as char else c
  }

  /** `str.title` from a position whose left neighbour is (or is not) a letter. */
  function TitleFrom(s: string, afterLetter: bool): (t: string)
    ensures |t| == |s|
    decreases |s|
  {
    if |s| == 0 then []
    else [if afterLetter then Lower(s[0]) else Upper(s[0])] + TitleFrom(s[1..], IsLetter(s[0]))
  }

  /** `str.title`: a letter is upper-cased when it starts a run of letters and
      lower-cased otherwise; every other character is kept. Only ASCII letters
      are treated as cased. */
  function TitleCase(s: string): (t: string)
  {
    TitleFrom(s, false)
  }

  /** Entry by entry: a letter is capitalised when it follows a non-letter or
      starts the string, every other character is lower-cased or kept. */
  lemma {:induction false} TitleFromAt(s: string, afterLetter: bool, k: nat)
    requires k < |s|
    ensures var left := if k == 0 then afterLetter else IsLetter(s[k - 1]);
      TitleFrom(s, afterLetter)[k] == if left then Lower(s[k]) else Upper(s[k])
    decreases |s|
  {
    if k > 0 {
      TitleFromAt(s[1..], IsLetter(s[0]), k - 1);
    }
  }

  /** Renaming twice changes nothing more than renaming once. */
  lemma {:induction false} TitleFromIdempotent(s: string, afterLetter: bool)
    ensures TitleFrom(TitleFrom(s, afterLetter), afterLetter) == TitleFrom(s, afterLetter)
    decreases |s|
  {
    if |s| > 0 {
      var t := TitleFrom(s, afterLetter);
      assert t[1..] == TitleFrom(s[1..], IsLetter(s[0]));
      assert IsLetter(t[0]) == IsLetter(s[0]);
      TitleFromIdempotent(s[1..], IsLetter(s[0]));
      assert t[0] == (if afterLetter then Lower(t[0]) else Upper(t[0]));
    }
  }

  lemma TitleCaseIdempotent(s: string)
    ensures TitleCase(TitleCase(s)) == TitleCase(s)
  {
    TitleFromIdempotent(s, false);
  }

  /** Worked examples: the labels the core reads and writes. */
  lemma TitleCaseExamples()
    ensures TitleCase("close") == "Close" && TitleCase("CLOSE") == "Close"
    ensures TitleCase("bb_upper") == "Bb_Upper"
  {
    TitleCaseMatches("close", "Close");
    TitleCaseMatches("CLOSE", "Close");
    TitleCaseMatches("bb_upper", "Bb_Upper");
  }

  lemma TitleCaseMatches(s: string, t: string)
    requires |s| == |t|
    requires forall k :: 0 <= k < |s| ==>
      t[k] == if k > 0 && IsLetter(s[k - 1]) then Lower(s[k]) else Upper(s[k])
    ensures TitleCase(s) == t
  {
    assert |TitleCase(s)| == |t|;
    forall k | 0 <= k < |s| ensures TitleCase(s)[k] == t[k] {
      TitleFromAt(s, false, k);
    }
  }

  /** `frame.rename(columns=str.title)`. */
  function Rename<T>(cols: seq<Column<T>>): (r: seq<Column<T>>)
    ensures |r| == |cols|
    ensures forall k :: 0 <= k < |cols| ==> r[k] == Column(TitleCase(cols[k].name), cols[k].cells)
  {
    seq(|cols|, k requires 0 <= k < |cols| => Column(TitleCase(cols[k].name), cols[k].cells))
  }

  /** Raw numbers seen as cells that may later hold NaN. */
  function Lift(xs: seq<real>): (r: seq<Option<real>>)
    ensures |r| == |xs| && forall i :: 0 <= i < |xs| ==> r[i] == Some(xs[i])
  {
    seq(|xs|, i requires 0 <= i < |xs| => Some(xs[i]))
  }

  function LiftColumns(cols: seq<Column<real>>): (r: seq<Column<Option<real>>>)
    ensures |r| == |cols|
    ensures forall k :: 0 <= k < |cols| ==> r[k] == Column(cols[k].name, Lift(cols[k].cells))
  {
    seq(|cols|, k requires 0 <= k < |cols| => Column(cols[k].name, Lift(cols[k].cells)))
  }

  /** A frame object whose columns operations replace in place. */
  class DataFrame {
    var columns: seq<Column<Option<real>>>
    var rows: nat

    ghost predicate Valid()
      reads this
    {
      Rectangular(columns, rows)
    }

    constructor (columns: seq<Column<Option<real>>>, rows: nat)
      requires Rectangular(columns, rows)
      ensures Valid() && this.columns == columns && this.rows == rows
    {
      this.columns := columns;
      this.rows := rows;
    }
  }
}

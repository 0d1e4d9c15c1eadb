/** Changed-file inventories: canonical paths, Git's change statuses, and the NUL-separated listing they arrive in. */
module Inventory {
  import opened Wrappers

  datatype ChangedFile = ChangedFile(status: string, paths: seq<string>)

  /** The pieces of `text` between separators; there is always at least one. */
  function Split(text: string, separator: char): (r: seq<string>)
    ensures r != []
  {
    if text == [] then [""]
    else
      var rest := Split(text[1..], separator);
      if text[0] == separator then [""] + rest else [[text[0]] + rest[0]] + rest[1..]
  }

  function TopLevel(path: string): string {
    Split(path, '/')[0]
  }

  /** Relative, forward-slashed, without empty, `.` or `..` components. */
  predicate CanonicalPath(path: string) {
    && path != "" && path[0] != '/' && '\\' !in path
    && forall c <- Split(path, '/') :: c != "" && c != "." && c != ".."
  }

  predicate Digits(text: string) {
    forall c <- text :: '0' <= c <= '9'
  }

  function Number(text: string): int {
    if text == [] then 0
    else Number(text[..|text| - 1]) * 10 + (text[|text| - 1] as int - '0' as int)
  }

  /** A plain change, or a rename or copy with an optional similarity score of at most 100. */
  predicate ValidStatus(status: string) {
    && status != ""
    && if status[0] in "ADMT" then |status| == 1
       else status[0] in "CR" && |status| <= 4 && Digits(status[1..]) && Number(status[1..]) <= 100
  }

  /** A rename or copy names its old path too. */
  function PathCount(status: string): nat {
    if status != "" && status[0] in "CR" then 2 else 1
  }

  predicate Repeats(paths: seq<string>, seen: set<string>) {
    (exists p <- paths :: p in seen) || (|paths| == 2 && paths[0] == paths[1])
  }

  predicate ValidRecord(c: ChangedFile, seen: set<string>) {
    && ValidStatus(c.status)
    && |c.paths| == PathCount(c.status)
    && (forall p <- c.paths :: CanonicalPath(p))
    && !Repeats(c.paths, seen)
  }

  function PathSet(paths: seq<string>): set<string> {
    set p | p in paths
  }

  /** A whole inventory: valid records over distinct logical paths. */
  predicate ValidInventory(changed: seq<ChangedFile>, seen: set<string>) {
    changed != [] ==> ValidRecord(changed[0], seen) && ValidInventory(changed[1..], seen + PathSet(changed[0].paths))
  }

  function AllPaths(changed: seq<ChangedFile>): set<string> {
    set c, p | c in changed && p in c.paths :: p
  }

  // ---------------------------------------------------------------- the listing

  const NUL: char := 0 as char

  function Terminated(fields: seq<string>): string {
    if fields == [] then "" else fields[0] + [NUL] + Terminated(fields[1..])
  }

  function FieldsOf(changed: seq<ChangedFile>): seq<string> {
    if changed == [] then [] else [changed[0].status] + changed[0].paths + FieldsOf(changed[1..])
  }

  /** What Git prints for an inventory. */
  function Listing(changed: seq<ChangedFile>): string {
    Terminated(FieldsOf(changed))
  }

  /** Records read from the fields, in order, over paths not seen before. */
  function Records(fields: seq<string>, seen: set<string>): Result<seq<ChangedFile>>
    decreases |fields|
  {
    if fields == [] then Success([])
    else if !ValidStatus(fields[0]) then Failure
    else
      var n := PathCount(fields[0]);
      if |fields| < n + 1 then Failure
      else
        var record := ChangedFile(fields[0], fields[1..n + 1]);
        if !ValidRecord(record, seen) then Failure
        else
          var rest :- Records(fields[n + 1..], seen + PathSet(record.paths));
          Success([record] + rest)
  }

  function Parse(payload: string): Result<seq<ChangedFile>> {
    if payload == "" then Success([])
    else
      var fields := Split(payload, NUL);
      if fields[|fields| - 1] != "" then Failure else Records(fields[..|fields| - 1], {})
  }

  predicate Plain(text: string) {
    NUL !in text
  }

  lemma {:induction false} SplitPlain(a: string, b: string)
    requires Plain(a)
    ensures Split(a + [NUL] + b, NUL) == [a] + Split(b, NUL)
    decreases |a|
  {
    var all := a + [NUL] + b;
    if a == [] {
      assert all[1..] == b;
    } else {
      assert all[0] == a[0] && a[0] in a;
      assert all[1..] == a[1..] + [NUL] + b;
      SplitPlain(a[1..], b);
      assert [a[0]] + a[1..] == a;
    }
  }

  lemma {:induction false} SplitTerminated(fields: seq<string>)
    requires forall f <- fields :: Plain(f)
    ensures Split(Terminated(fields), NUL) == fields + [""]
    decreases |fields|
  {
    if fields != [] {
      SplitPlain(fields[0], Terminated(fields[1..]));
      SplitTerminated(fields[1..]);
      assert fields == [fields[0]] + fields[1..];
      assert [fields[0]] + (fields[1..] + [""]) == fields + [""];
    }
  }

  /** Splitting loses nothing: the pieces, terminated, are the text and its terminator. */
  lemma {:induction false} TerminatedSplit(text: string)
    ensures Terminated(Split(text, NUL)) == text + [NUL]
    ensures forall f <- Split(text, NUL) :: Plain(f)
    decreases |text|
  {
    if text != [] {
      TerminatedSplit(text[1..]);
      var rest := Split(text[1..], NUL);
      assert text == [text[0]] + text[1..];
      if text[0] == NUL {
        assert ([""] + rest)[1..] == rest;
      } else {
        var first := [text[0]] + rest[0];
        assert Split(text, NUL)[1..] == rest[1..];
        assert Terminated(rest) == rest[0] + [NUL] + Terminated(rest[1..]);
        assert first + [NUL] + Terminated(rest[1..]) == [text[0]] + (rest[0] + [NUL] + Terminated(rest[1..]));
        assert Plain(rest[0]) && Plain(first);
      }
    }
  }

  lemma {:induction false} TerminatedAppend(a: seq<string>, b: seq<string>)
    ensures Terminated(a + b) == Terminated(a) + Terminated(b)
    decreases |a|
  {
    if a == [] {
      assert a + b == b;
    } else {
      assert (a + b)[1..] == a[1..] + b;
      TerminatedAppend(a[1..], b);
    }
  }

  lemma {:induction false} RecordsOfFields(changed: seq<ChangedFile>, seen: set<string>)
    requires ValidInventory(changed, seen)
    ensures Records(FieldsOf(changed), seen) == Success(changed)
    decreases |changed|
  {
    if changed != [] {
      var c := changed[0];
      var fields := FieldsOf(changed);
      var n := PathCount(c.status);
      assert fields[0] == c.status;
      assert fields[1..n + 1] == c.paths;
      assert fields[n + 1..] == FieldsOf(changed[1..]);
      RecordsOfFields(changed[1..], seen + PathSet(c.paths));
      assert changed == [c] + changed[1..];
    }
  }

  lemma {:induction false} FieldsOfRecords(fields: seq<string>, seen: set<string>)
    ensures var r := Records(fields, seen); r.Success? ==> FieldsOf(r.value) == fields && ValidInventory(r.value, seen)
    decreases |fields|
  {
    var r := Records(fields, seen);
    if fields != [] && r.Success? {
      var n := PathCount(fields[0]);
      var record := ChangedFile(fields[0], fields[1..n + 1]);
      FieldsOfRecords(fields[n + 1..], seen + PathSet(record.paths));
      assert r.value[1..] == Records(fields[n + 1..], seen + PathSet(record.paths)).value;
      assert fields == [fields[0]] + fields[1..n + 1] + fields[n + 1..];
    }
  }

  lemma {:induction false} TerminatedFront(payload: string, fields: seq<string>, front: seq<string>)
    requires fields == Split(payload, NUL) && fields == front + [""]
    ensures Terminated(front) == payload && forall f <- front :: Plain(f)
  {
    TerminatedSplit(payload);
    TerminatedAppend(front, [""]);
    assert [""][1..] == [];
    assert Terminated(front) + [NUL] == payload + [NUL];
    assert Terminated(front) == (Terminated(front) + [NUL])[..|payload|];
    assert forall f <- front :: f in fields;
  }

  predicate PlainInventory(changed: seq<ChangedFile>) {
    forall f <- FieldsOf(changed) :: Plain(f)
  }

  /** The parser inverts Git's listing: it returns `changed` exactly on the listing of a valid inventory. */
  lemma {:induction false} ParseInvertsListing(payload: string, changed: seq<ChangedFile>)
    ensures Parse(payload) == Success(changed) <==>
      ValidInventory(changed, {}) && PlainInventory(changed) && payload == Listing(changed)
  {
    hide ValidRecord, ValidStatus, Split;
    if Parse(payload) == Success(changed) {
      if payload != "" {
        var fields := Split(payload, NUL);
        var front := fields[..|fields| - 1];
        TerminatedSplit(payload);
        FieldsOfRecords(front, {});
        TerminatedFront(payload, fields, front);
      }
    }
    if ValidInventory(changed, {}) && PlainInventory(changed) && payload == Listing(changed) {
      if changed != [] {
        var fields := FieldsOf(changed);
        SplitTerminated(fields);
        RecordsOfFields(changed, {});
        assert (fields + [""])[..|fields|] == fields;
      }
    }
  }

  /** Reads one record at a time, remembering every logical path, old paths of renames included. */
  method ParseNameStatus(payload: string) returns (r: Result<seq<ChangedFile>>)
    ensures r == Parse(payload)
  {
    hide ValidStatus, CanonicalPath, Repeats, Split, Records, PathCount, ValidRecord;
    if payload == "" {
      return Success([]);
    }
    var fields := Split(payload, NUL);
    if fields[|fields| - 1] != "" {
      return Failure;
    }
    fields := fields[..|fields| - 1];
    var records, seen: set<string>, position: nat := [], {}, 0;
    assert fields[0..] == fields;
    PrefixedByNothing(Records(fields, {}));
    while position < |fields|
      invariant position <= |fields|
      invariant Records(fields, {}) == Prefixed(records, Records(fields[position..], seen))
      decreases |fields| - position
    {
      var rest := fields[position..];
      var status := fields[position];
      RecordsStep(rest, seen);
      if !ValidStatus(status) {
        return Failure;
      }
      var n := PathCount(status);
      if |rest| < n + 1 {
        return Failure;
      }
      var paths := fields[position + 1..position + 1 + n];
      assert paths == rest[1..n + 1];
      var record := ChangedFile(status, paths);
      ValidRecordIs(record, seen);
      if (exists p <- paths :: !CanonicalPath(p)) || Repeats(paths, seen) {
        return Failure;
      }
      assert rest[n + 1..] == fields[position + 1 + n..];
      PrefixedTwice(records, record, Records(rest[n + 1..], seen + PathSet(paths)));
      records := records + [record];
      seen := seen + PathSet(paths);
      position := position + 1 + n;
    }
    assert fields[position..] == [];
    NoRecords(seen);
    assert records + [] == records;
    return Success(records);
  }

  function Prefixed(records: seq<ChangedFile>, r: Result<seq<ChangedFile>>): Result<seq<ChangedFile>> {
    if r.Failure? then Failure else Success(records + r.value)
  }

  lemma {:induction false} NoRecords(seen: set<string>)
    ensures Records([], seen) == Success([])
  {
  }

  lemma ValidRecordIs(c: ChangedFile, seen: set<string>)
    requires ValidStatus(c.status) && |c.paths| == PathCount(c.status)
    ensures ValidRecord(c, seen) <==> (forall p <- c.paths :: CanonicalPath(p)) && !Repeats(c.paths, seen)
  {
  }

  lemma {:induction false} RecordsStep(rest: seq<string>, seen: set<string>)
    requires rest != []
    ensures PathCount(rest[0]) > 0
    ensures var n := PathCount(rest[0]);
      Records(rest, seen) ==
        if !ValidStatus(rest[0]) || |rest| < n + 1 || !ValidRecord(ChangedFile(rest[0], rest[1..n + 1]), seen) then Failure
        else Prefixed([ChangedFile(rest[0], rest[1..n + 1])], Records(rest[n + 1..], seen + PathSet(rest[1..n + 1])))
  {
    hide ValidStatus, ValidRecord;
  }

  lemma PrefixedByNothing(r: Result<seq<ChangedFile>>)
    ensures Prefixed([], r) == r
  {
    if r.Success? {
      assert [] + r.value == r.value;
    }
  }

  lemma PrefixedTwice(records: seq<ChangedFile>, record: ChangedFile, r: Result<seq<ChangedFile>>)
    ensures Prefixed(records + [record], r) == Prefixed(records, Prefixed([record], r))
  {
    if r.Success? {
      assert (records + [record]) + r.value == records + ([record] + r.value);
    }
  }
}

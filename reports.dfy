/**
 * The report builder's specification: records, the record store as the
 * reporter sees it, and the text each kind of record renders to.
 *
 * A report is a list of parts joined with newlines and framed by a banner
 * of 60 `=` characters. A test suite lists its cases (the store records
 * whose parent is the suite); a regression embeds the full reports of its
 * pass and fail records, rendered by the same dispatch. The Python
 * recursion has no explicit bound; here it carries a depth budget, and the
 * lemmas at the end show that the budget only matters for a chain that is
 * deeper than it (in particular a cycle).
 */
module Reports {
  import opened Wrappers

  datatype Revision = Revision(tree: string, branch: string, commit: string, describe: Option<string>)

  /** The kind-specific payload `node.data`; a field a kind does not carry is `None`. */
  datatype NodeData = NodeData(
    revision: Revision,
    platform: Option<string>,
    jobId: Option<string>,
    runtime: Option<string>,
    passNode: Option<string>,
    failNode: Option<string>)

  /**
   * A store record as the reporter reads it. `isSuite` is the answer of
   * `is_test_suite()`, which the record model computes outside this code.
   */
  datatype Record = Record(
    id: string,
    kind: string,
    name: string,
    group: Option<string>,
    created: string,
    result: Option<string>,
    parent: Option<string>,
    isSuite: bool,
    artifacts: Option<map<string, string>>,
    data: NodeData)

  /** The records of the store, in the order its queries return them. */
  type Store = seq<Record>

  datatype ReportError =
    | KindNotImplemented(kind: string)   // NotImplementedError("Settings type not implemented")
    | MissingArtifacts                   // `in` / `.get` on an artifacts value of None
    | MissingParent                      // `node.parent.artifacts` with no parent record
    | UnresolvedNode                     // a pass/fail reference the store cannot resolve
    | DepthExceeded                      // the recursion went deeper than its budget

  // ---------------------------------------------------------------------
  // The store
  // ---------------------------------------------------------------------

  /** The record with this id (the first one, should the store repeat an id). */
  function Get(store: Store, id: string): (r: Option<Record>)
    ensures r.Some? ==> r.value in store && r.value.id == id
    ensures r.None? <==> forall k :: 0 <= k < |store| ==> store[k].id != id
    decreases |store|
  {
    if store == [] then None
    else if store[0].id == id then Some(store[0])
    else Get(store[1..], id)
  }

  /** A lazily resolved reference: the record it names, if there is one. */
  function Resolve(store: Store, ref: Option<string>): Option<Record>
  {
    if ref.None? then None else Get(store, ref.value)
  }

  /** `find({'parent': id})`: the records whose parent is `id`, in store order. */
  function Children(store: Store, id: string): (r: seq<Record>)
    ensures forall x :: x in r <==> x in store && x.parent == Some(id)
    ensures |r| <= |store|
    decreases |store|
  {
    if store == [] then []
    else
      var init := store[..|store| - 1];
      var last := store[|store| - 1];
      assert store == init + [last];
      Children(init, id) + (if last.parent == Some(id) then [last] else [])
  }

  /** The positions of the store records whose parent is `id`, in increasing order. */
  function MatchIndices(store: Store, id: string): (idx: seq<nat>)
    ensures forall j :: 0 <= j < |idx| ==> idx[j] < |store|
    ensures forall j, l :: 0 <= j < l < |idx| ==> idx[j] < idx[l]
    ensures forall k: nat :: k in idx <==> k < |store| && store[k].parent == Some(id)
    decreases |store|
  {
    if store == [] then []
    else
      var init := store[..|store| - 1];
      var rest := MatchIndices(init, id);
      assert forall k: nat :: k < |init| ==> init[k] == store[k];
      rest + (if store[|store| - 1].parent == Some(id) then [|store| - 1] else [])
  }

  // ---------------------------------------------------------------------
  // Text
  // ---------------------------------------------------------------------

  /** Python's `str()` of an optional string. */
  function Show(v: Option<string>): string
  {
    if v.Some? then v.value else "None"
  }

  /** `sep.join(parts)`. */
  function Join(parts: seq<string>, sep: string): string
    decreases |parts|
  {
    if |parts| == 0 then ""
    else if |parts| == 1 then parts[0]
    else Join(parts[..|parts| - 1], sep) + sep + parts[|parts| - 1]
  }

  function Digit(d: nat): (c: char)
    requires d < 10
    ensures '0' <= c <= '9'
  {
    ('0' as int + d) as char
  }

  /** The decimal rendering of a count, as an f-string writes `len(...)`. */
  function NatToString(n: nat): (s: string)
    ensures |s| >= 1
    ensures forall i :: 0 <= i < |s| ==> '0' <= s[i] <= '9'
    decreases n
  {
    if n < 10 then [Digit(n)] else NatToString(n / 10) + [Digit(n % 10)]
  }

  /** The number a string of decimal digits denotes. */
  function DecimalValue(s: string): nat
    requires forall i :: 0 <= i < |s| ==> '0' <= s[i] <= '9'
    decreases |s|
  {
    if s == [] then 0
    else DecimalValue(s[..|s| - 1]) * 10 + (s[|s| - 1] as int - '0' as int)
  }

  /** `c * n` in Python: the character repeated n times. */
  function Repeat(c: char, n: nat): (r: string)
    ensures |r| == n
    ensures forall i :: 0 <= i < n ==> r[i] == c
    decreases n
  {
    if n == 0 then [] else Repeat(c, n - 1) + [c]
  }

  const Banner: string := Repeat('=', 60)
  const Indent: string := Repeat(' ', 8)

  /** The frame `create_report` puts around every kind-specific report. */
  function Framed(report: string): string
  {
    Banner + "\n" + report + "\n" + Banner + "\n"
  }

  /** The four-line kernel revision block every test and kbuild report carries. */
  function KernelBlock(rev: Revision): string
  {
    "Kernel:\n"
    + "    tree: " + rev.tree + "\n"
    + "    branch: " + rev.branch + "\n"
    + "    commit: " + rev.commit + "\n"
    + "    describe: " + Show(rev.describe)
  }

  /** `artifacts.get(key)`. */
  function Lookup(artifacts: map<string, string>, key: string): Option<string>
  {
    if key in artifacts then Some(artifacts[key]) else None
  }

  /** The log line of a suite: its own `lava_log`, or the no-log marker. */
  function SuiteLogLine(artifacts: map<string, string>): string
  {
    if "lava_log" in artifacts then "Log: " + artifacts["lava_log"] else "NO TEST LOG"
  }

  /** The log line of a case, taken from its parent's artifacts. */
  function CaseLogLine(parentArtifacts: Option<map<string, string>>): string
  {
    if parentArtifacts.Some? && parentArtifacts.value != map[] then SuiteLogLine(parentArtifacts.value)
    else "***** Parent has no artifacts? wtf"
  }

  // ---------------------------------------------------------------------
  // The kind-specific reports
  // ---------------------------------------------------------------------

  /** The three parts a suite report gives each of its cases. */
  function CaseEntry(c: Record): seq<string>
  {
    ["Test case: " + c.name, Indent + "Test id: " + c.id, Indent + "Result: " + Show(c.result) + "\n"]
  }

  /** The case entries of a suite report, in find order. */
  function CaseLines(cases: seq<Record>): seq<string>
    decreases |cases|
  {
    if cases == [] then []
    else CaseLines(cases[..|cases| - 1]) + CaseEntry(cases[|cases| - 1])
  }

  /** The parts of a suite report before its `Test cases:` line. */
  function SuiteHead(node: Record, artifacts: map<string, string>): (r: seq<string>)
    ensures |r| == 8
  {
    ["",
     "Test id: " + node.id,
     "Name: " + node.name,
     "Date: " + node.created,
     SuiteLogLine(artifacts),
     KernelBlock(node.data.revision),
     "Platform: " + Show(node.data.platform),
     "Lava job id: " + Show(node.data.jobId)]
  }

  function SuiteParts(store: Store, node: Record, artifacts: map<string, string>): seq<string>
  {
    var cases := Children(store, node.id);
    SuiteHead(node, artifacts) + ["Test cases: " + NatToString(|cases|)] + CaseLines(cases)
  }

  /** `_create_test_suite_report`. */
  function SuiteReport(store: Store, node: Record): Result<string, ReportError>
  {
    match node.artifacts
    case None => Err(MissingArtifacts)
    case Some(a) => Ok(Join(SuiteParts(store, node, a), "\n"))
  }

  function CaseParts(node: Record, parent: Record): seq<string>
  {
    ["Test id: " + node.id,
     "Name: " + node.name + " - suite: " + Show(node.group),
     "Date: " + node.created,
     "Result: " + Show(node.result),
     CaseLogLine(parent.artifacts),
     KernelBlock(node.data.revision),
     "Platform: " + Show(parent.data.platform),
     "Lava job id: " + Show(node.data.jobId)]
  }

  /** `_create_test_case_report`, the parent being resolved through the store. */
  function CaseReport(store: Store, node: Record): Result<string, ReportError>
  {
    match Resolve(store, node.parent)
    case None => Err(MissingParent)
    case Some(parent) => Ok(Join(CaseParts(node, parent), "\n"))
  }

  /** The artifacts block of a kbuild report; a missing artifact shows as `None`. */
  function ArtifactsBlock(a: map<string, string>): string
  {
    "Artifacts:\n"
    + "    Build log: " + Show(Lookup(a, "build_log")) + "\n"
    + "    Build image stdout: " + Show(Lookup(a, "build_kimage_stdout")) + "\n"
    + "    Build image errors: " + Show(Lookup(a, "build_kernel_errors")) + "\n"
    + "    Build modules stdout: " + Show(Lookup(a, "build_modules_stdout")) + "\n"
    + "    Build modules errors: " + Show(Lookup(a, "build_modules_errors")) + "\n"
    + "    Metadata: " + Show(Lookup(a, "metadata")) + "\n"
    + "    Kernel image: " + Show(Lookup(a, "kernel")) + "\n"
    + "    Kernel modules: " + Show(Lookup(a, "modules"))
  }

  function KbuildParts(node: Record, artifacts: map<string, string>): seq<string>
  {
    ["",
     "Kbuild id: " + node.id,
     "Name: " + node.name,
     "Date: " + node.created,
     KernelBlock(node.data.revision),
     ArtifactsBlock(artifacts),
     "Runtime: " + Show(node.data.runtime),
     "Job id: " + Show(node.data.jobId)]
  }

  /** `_create_kbuild_report`. */
  function KbuildReport(node: Record): Result<string, ReportError>
  {
    match node.artifacts
    case None => Err(MissingArtifacts)
    case Some(a) => Ok(Join(KbuildParts(node, a), "\n"))
  }

  /** The parts of a regression report before the embedded pass report. */
  function RegressionHead(node: Record): (r: seq<string>)
    ensures |r| == 5
  {
    ["",
     "Name: " + node.name + " - suite: " + Show(node.group),
     "Date: " + node.created,
     "Result: " + Show(node.result),
     "Passed node: ..."]
  }

  /**
   * `_create_regression_report`: both references are resolved first, then
   * the pass report and the fail report are rendered, in that order.
   */
  function RegressionReport(store: Store, node: Record, depth: nat): Result<string, ReportError>
    decreases depth, 1
  {
    var passNode := Resolve(store, node.data.passNode);
    var failNode := Resolve(store, node.data.failNode);
    if passNode.None? || failNode.None? then Err(UnresolvedNode)
    else
      match Render(store, passNode.value, depth)
      case Err(e) => Err(e)
      case Ok(passReport) =>
        match Render(store, failNode.value, depth)
        case Err(e) => Err(e)
        case Ok(failReport) =>
          Ok(Join(RegressionHead(node) + [passReport, "Failed node: ...", failReport], "\n"))
  }

  /** The kind dispatch of `create_report`; a regression renders its references within `depth`. */
  function KindReport(store: Store, node: Record, depth: nat): Result<string, ReportError>
    decreases depth, 2
  {
    if node.kind == "test" then
      if node.isSuite then SuiteReport(store, node) else CaseReport(store, node)
    else if node.kind == "kbuild" then KbuildReport(node)
    else if node.kind == "regression" then RegressionReport(store, node, depth)
    else Err(KindNotImplemented(node.kind))
  }

  /** The banner frame around a kind-specific report; an error passes through. */
  function Frame(report: Result<string, ReportError>): Result<string, ReportError>
  {
    match report
    case Err(e) => Err(e)
    case Ok(r) => Ok(Framed(r))
  }

  /** `create_report`: one level of the depth budget per nested call. */
  function Render(store: Store, node: Record, depth: nat): Result<string, ReportError>
    decreases depth, 0
  {
    if depth == 0 then Err(DepthExceeded) else Frame(KindReport(store, node, depth - 1))
  }

  /**
   * The pass/fail chain below a record fits in `depth` nested renderings:
   * every regression on it whose two references resolve has both of them
   * within one level less.
   */
  predicate Bounded(store: Store, node: Record, depth: nat)
    decreases depth
  {
    && depth > 0
    && (node.kind == "regression"
        && Resolve(store, node.data.passNode).Some?
        && Resolve(store, node.data.failNode).Some?
        ==>
          && Bounded(store, Resolve(store, node.data.passNode).value, depth - 1)
          && Bounded(store, Resolve(store, node.data.failNode).value, depth - 1))
  }

  // ---------------------------------------------------------------------
  // Lemmas
  // ---------------------------------------------------------------------

  /** Reading back the decimal rendering of a count gives the count. */
  lemma {:induction false} DecimalRoundTrip(n: nat)
    ensures DecimalValue(NatToString(n)) == n
    decreases n
  {
    var s := NatToString(n);
    if n < 10 {
      assert s[..0] == [];
    } else {
      DecimalRoundTrip(n / 10);
      assert s[..|s| - 1] == NatToString(n / 10);
    }
  }

  /** Joining two non-empty lists of parts puts one separator between them. */
  lemma {:induction false} JoinConcat(ps: seq<string>, qs: seq<string>, sep: string)
    requires |ps| >= 1 && |qs| >= 1
    ensures Join(ps + qs, sep) == Join(ps, sep) + sep + Join(qs, sep)
    decreases |qs|
  {
    var all := ps + qs;
    if |qs| == 1 {
      assert all[..|all| - 1] == ps;
    } else {
      var init := qs[..|qs| - 1];
      JoinConcat(ps, init, sep);
      assert all[..|all| - 1] == ps + init;
      assert qs[..|qs| - 1] == init;
    }
  }

  lemma Join3(a: string, b: string, c: string, sep: string)
    ensures Join([a, b, c], sep) == a + sep + b + sep + c
  {
    var ps := [a, b, c];
    assert ps[..2] == [a, b];
    assert [a, b][..1] == [a];
    assert Join([a], sep) == a;
    assert Join([a, b], sep) == a + sep + b;
    assert Join(ps, sep) == Join([a, b], sep) + sep + c;
  }

  /** The slice of `head + [line] + rest` past a head of eight parts and the line. */
  lemma SliceAfterHead(head: seq<string>, line: string, rest: seq<string>, i: nat, j: nat)
    requires |head| == 8 && i <= j <= |rest|
    ensures (head + [line] + rest)[9 + i..9 + j] == rest[i..j]
    ensures (head + [line] + rest)[8] == line
  {
  }

  /** One more case adds its entry at the end. */
  lemma CaseLinesSnoc(cases: seq<Record>, i: nat)
    requires i < |cases|
    ensures CaseLines(cases[..i + 1]) == CaseLines(cases[..i]) + CaseEntry(cases[i])
  {
    assert cases[..i + 1][..i] == cases[..i];
  }

  /** A suite report lists exactly three lines per case, in find order. */
  lemma {:induction false} CaseLinesAt(cases: seq<Record>)
    ensures |CaseLines(cases)| == 3 * |cases|
    ensures forall k :: 0 <= k < |cases| ==> CaseLines(cases)[3 * k..3 * k + 3] == CaseEntry(cases[k])
    decreases |cases|
  {
    if cases != [] {
      var init := cases[..|cases| - 1];
      CaseLinesAt(init);
      var ls := CaseLines(cases);
      assert ls == CaseLines(init) + CaseEntry(cases[|cases| - 1]);
      forall k | 0 <= k < |cases|
        ensures ls[3 * k..3 * k + 3] == CaseEntry(cases[k])
      {
        if k < |init| {
          assert ls[3 * k..3 * k + 3] == CaseLines(init)[3 * k..3 * k + 3];
          assert init[k] == cases[k];
        } else {
          assert ls[3 * k..3 * k + 3] == CaseEntry(cases[|cases| - 1]);
        }
      }
    }
  }

  /**
   * The suite report's `Test cases: N` line carries the number of records
   * whose parent is the suite, and is followed by one (name, id, result)
   * entry per such record, in find order.
   */
  lemma SuiteCaseEntries(store: Store, node: Record, artifacts: map<string, string>)
    ensures |SuiteParts(store, node, artifacts)| == 9 + 3 * |Children(store, node.id)|
    ensures SuiteParts(store, node, artifacts)[8] == "Test cases: " + NatToString(|Children(store, node.id)|)
    ensures DecimalValue(NatToString(|Children(store, node.id)|)) == |Children(store, node.id)|
    ensures forall k :: 0 <= k < |Children(store, node.id)| ==>
              SuiteParts(store, node, artifacts)[9 + 3 * k..12 + 3 * k] == CaseEntry(Children(store, node.id)[k])
  {
    var cases := Children(store, node.id);
    var head := SuiteHead(node, artifacts);
    var line := "Test cases: " + NatToString(|cases|);
    assert SuiteParts(store, node, artifacts) == head + [line] + CaseLines(cases);
    EntriesAfterHead(head, line, cases);
    DecimalRoundTrip(|cases|);
  }

  /**
   * `find({'parent': id})` returns the matching store records in store
   * order, one per matching position: as many records as there are
   * positions whose record has parent `id`, the j-th being the record at
   * the j-th such position.
   */
  lemma {:induction false} ChildrenInStoreOrder(store: Store, id: string)
    ensures |Children(store, id)| == |MatchIndices(store, id)|
    ensures forall j :: 0 <= j < |Children(store, id)| ==> Children(store, id)[j] == store[MatchIndices(store, id)[j]]
    decreases |store|
  {
    if store != [] {
      var init := store[..|store| - 1];
      ChildrenInStoreOrder(init, id);
      var cs := Children(store, id);
      var positions := MatchIndices(store, id);
      forall j | 0 <= j < |cs| ensures cs[j] == store[positions[j]] {
        if j < |Children(init, id)| {
          assert cs[j] == Children(init, id)[j];
          assert positions[j] == MatchIndices(init, id)[j];
        }
      }
    }
  }

  /** The case entries after an eight-part head and the count line. */
  lemma EntriesAfterHead(head: seq<string>, line: string, cases: seq<Record>)
    requires |head| == 8
    ensures |head + [line] + CaseLines(cases)| == 9 + 3 * |cases|
    ensures (head + [line] + CaseLines(cases))[8] == line
    ensures forall k :: 0 <= k < |cases| ==> (head + [line] + CaseLines(cases))[9 + 3 * k..12 + 3 * k] == CaseEntry(cases[k])
  {
    var lines := CaseLines(cases);
    CaseLinesAt(cases);
    SliceAfterHead(head, line, lines, 0, 0);
    forall k | 0 <= k < |cases|
      ensures (head + [line] + lines)[9 + 3 * k..12 + 3 * k] == CaseEntry(cases[k])
    {
      SliceAfterHead(head, line, lines, 3 * k, 3 * k + 3);
    }
  }

  /**
   * The case report's log line: the parent's `lava_log` when it has one,
   * the no-log marker when the parent has other artifacts, and the
   * "no artifacts" marker when its artifacts are absent or empty.
   */
  lemma CaseLogChoice(store: Store, node: Record)
    ensures CaseReport(store, node).Ok? <==> Resolve(store, node.parent).Some?
    ensures CaseReport(store, node).Err? ==> CaseReport(store, node).error == MissingParent
    ensures Resolve(store, node.parent).Some? ==>
              var parent := Resolve(store, node.parent).value;
              var line := CaseParts(node, parent)[4];
              && (parent.artifacts.Some? && "lava_log" in parent.artifacts.value ==>
                    line == "Log: " + parent.artifacts.value["lava_log"])
              && (parent.artifacts.Some? && parent.artifacts.value != map[] && "lava_log" !in parent.artifacts.value ==>
                    line == "NO TEST LOG")
              && (parent.artifacts.None? || parent.artifacts.value == map[] ==>
                    line == "***** Parent has no artifacts? wtf")
  {
  }

  /** Every rendered report starts and ends with the 60-character banner. */
  lemma RenderFramed(store: Store, node: Record, depth: nat)
    requires Render(store, node, depth).Ok?
    ensures |Banner| == 60
    ensures var s := Render(store, node, depth).value;
            && |s| >= 2 * |Banner| + 3
            && s[..|Banner| + 1] == Banner + "\n"
            && s[|s| - |Banner| - 2..] == "\n" + Banner + "\n"
  {
    var body := KindReport(store, node, depth - 1).value;
    var s := Framed(body);
    assert s == (Banner + "\n") + (body + "\n" + Banner + "\n");
    assert s == (Banner + "\n" + body) + ("\n" + Banner + "\n");
  }

  /**
   * The dispatch of `create_report`: each kind goes to its renderer, a
   * test to the suite or case renderer by `is_test_suite()`, and any other
   * kind is refused.
   */
  lemma RenderDispatch(store: Store, node: Record, depth: nat)
    requires depth > 0
    ensures node.kind == "test" && node.isSuite ==> Render(store, node, depth) == Frame(SuiteReport(store, node))
    ensures node.kind == "test" && !node.isSuite ==> Render(store, node, depth) == Frame(CaseReport(store, node))
    ensures node.kind == "kbuild" ==> Render(store, node, depth) == Frame(KbuildReport(node))
    ensures node.kind == "regression" ==> Render(store, node, depth) == Frame(RegressionReport(store, node, depth - 1))
    ensures node.kind !in {"test", "kbuild", "regression"} ==> Render(store, node, depth) == Err(KindNotImplemented(node.kind))
  {
  }

  /** One level of `create_report` on a regression. */
  lemma RenderRegression(store: Store, node: Record, depth: nat)
    requires depth > 0 && node.kind == "regression"
    ensures Render(store, node, depth) == Frame(RegressionReport(store, node, depth - 1))
  {
  }

  /** How a regression report propagates the outcome of its two embedded reports. */
  lemma RegressionCases(store: Store, node: Record, depth: nat)
    ensures Resolve(store, node.data.passNode).None? || Resolve(store, node.data.failNode).None? ==>
              RegressionReport(store, node, depth) == Err(UnresolvedNode)
    ensures Resolve(store, node.data.passNode).Some? && Resolve(store, node.data.failNode).Some? ==>
              var passReport := Render(store, Resolve(store, node.data.passNode).value, depth);
              var failReport := Render(store, Resolve(store, node.data.failNode).value, depth);
              && (passReport.Err? ==> RegressionReport(store, node, depth) == Err(passReport.error))
              && (passReport.Ok? && failReport.Err? ==> RegressionReport(store, node, depth) == Err(failReport.error))
              && (passReport.Ok? && failReport.Ok? ==>
                    RegressionReport(store, node, depth)
                    == Ok(Join(RegressionHead(node) + [passReport.value, "Failed node: ...", failReport.value], "\n")))
  {
  }

  /** Only a regression report depends on the depth budget. */
  lemma KindReportDepthFree(store: Store, node: Record, depth: nat, more: nat)
    requires node.kind != "regression"
    ensures KindReport(store, node, depth) == KindReport(store, node, more)
  {
  }

  /**
   * A rendered regression report embeds, verbatim and in this order, the
   * full report of its pass record and then that of its fail record.
   */
  lemma RegressionEmbeds(store: Store, node: Record, depth: nat)
    requires node.kind == "regression" && Render(store, node, depth).Ok?
    ensures depth > 0
    ensures Resolve(store, node.data.passNode).Some? && Resolve(store, node.data.failNode).Some?
    ensures var passReport := Render(store, Resolve(store, node.data.passNode).value, depth - 1);
            var failReport := Render(store, Resolve(store, node.data.failNode).value, depth - 1);
            && passReport.Ok? && failReport.Ok?
            && Render(store, node, depth).value ==
                 Framed(Join(RegressionHead(node), "\n") + "\n" + passReport.value + "\n"
                        + "Failed node: ..." + "\n" + failReport.value)
  {
    RenderRegression(store, node, depth);
    RegressionCases(store, node, depth - 1);
    var passReport := Render(store, Resolve(store, node.data.passNode).value, depth - 1).value;
    var failReport := Render(store, Resolve(store, node.data.failNode).value, depth - 1).value;
    JoinThreeMore(RegressionHead(node), passReport, "Failed node: ...", failReport, "\n");
  }

  /** Joining a head and three more parts. */
  lemma JoinThreeMore(head: seq<string>, a: string, b: string, c: string, sep: string)
    requires |head| >= 1
    ensures Join(head + [a, b, c], sep) == Join(head, sep) + sep + a + sep + b + sep + c
  {
    JoinConcat(head, [a, b, c], sep);
    Join3(a, b, c, sep);
    var h := Join(head, sep);
    assert h + sep + (a + sep + b + sep + c) == h + sep + a + sep + b + sep + c;
  }

  /** A larger budget changes nothing once a report no longer runs out of it. */
  lemma {:induction false} RenderMonotone(store: Store, node: Record, depth: nat, more: nat)
    requires depth <= more
    requires Render(store, node, depth) != Err(DepthExceeded)
    ensures Render(store, node, more) == Render(store, node, depth)
    decreases depth, 1
  {
    if depth > 0 {
      if node.kind != "regression" {
        KindReportDepthFree(store, node, depth - 1, more - 1);
      } else {
        RegressionMonotone(store, node, depth, more);
      }
    }
  }

  /** The regression case of RenderMonotone: both embedded reports keep their value. */
  lemma {:induction false} RegressionMonotone(store: Store, node: Record, depth: nat, more: nat)
    requires 0 < depth <= more && node.kind == "regression"
    requires Render(store, node, depth) != Err(DepthExceeded)
    ensures Render(store, node, more) == Render(store, node, depth)
    decreases depth, 0
  {
    RenderRegression(store, node, depth);
    RenderRegression(store, node, more);
    RegressionCases(store, node, depth - 1);
    var passNode := Resolve(store, node.data.passNode);
    var failNode := Resolve(store, node.data.failNode);
    if passNode.Some? && failNode.Some? {
      EmbeddedMonotone(store, passNode.value, failNode.value, depth - 1, more - 1);
    }
    RegressionFromParts(store, node, depth - 1, more - 1);
  }

  /** The pass report, and the fail report when the pass report renders, keep their value. */
  lemma {:induction false} EmbeddedMonotone(store: Store, passNode: Record, failNode: Record, depth: nat, more: nat)
    requires depth <= more
    requires Render(store, passNode, depth) != Err(DepthExceeded)
    requires Render(store, passNode, depth).Ok? ==> Render(store, failNode, depth) != Err(DepthExceeded)
    ensures Render(store, passNode, more) == Render(store, passNode, depth)
    ensures Render(store, passNode, depth).Ok? ==> Render(store, failNode, more) == Render(store, failNode, depth)
    decreases depth, 2
  {
    RenderMonotone(store, passNode, depth, more);
    if Render(store, passNode, depth).Ok? {
      RenderMonotone(store, failNode, depth, more);
    }
  }

  /** A regression report is the same on two budgets when its embedded reports are. */
  lemma RegressionFromParts(store: Store, node: Record, depth: nat, more: nat)
    requires Resolve(store, node.data.passNode).Some? && Resolve(store, node.data.failNode).Some? ==>
               var passNode := Resolve(store, node.data.passNode).value;
               var failNode := Resolve(store, node.data.failNode).value;
               && Render(store, passNode, more) == Render(store, passNode, depth)
               && (Render(store, passNode, depth).Ok? ==> Render(store, failNode, more) == Render(store, failNode, depth))
    ensures RegressionReport(store, node, more) == RegressionReport(store, node, depth)
  {
    RegressionCases(store, node, depth);
    RegressionCases(store, node, more);
  }

  /** Rendering a record whose pass/fail chain fits the budget never runs out of it. */
  lemma {:induction false} BoundedRenders(store: Store, node: Record, depth: nat)
    requires Bounded(store, node, depth)
    ensures Render(store, node, depth) != Err(DepthExceeded)
    decreases depth
  {
    if node.kind == "regression" {
      RenderRegression(store, node, depth);
      RegressionCases(store, node, depth - 1);
      var passNode := Resolve(store, node.data.passNode);
      var failNode := Resolve(store, node.data.failNode);
      if passNode.Some? && failNode.Some? {
        BoundedRenders(store, passNode.value, depth - 1);
        BoundedRenders(store, failNode.value, depth - 1);
      }
    }
  }

  /**
   * For an acyclic chain of finite depth the recursion terminates with a
   * report that is the same for every budget at least that depth.
   */
  lemma BoundedBudgetIrrelevant(store: Store, node: Record, depth: nat, more: nat)
    requires Bounded(store, node, depth) && depth <= more
    ensures Render(store, node, more) == Render(store, node, depth) != Err(DepthExceeded)
  {
    BoundedRenders(store, node, depth);
    RenderMonotone(store, node, depth, more);
  }

  /** A regression whose pass reference resolves to itself exhausts every budget. */
  lemma {:induction false} SelfReferenceExhausts(store: Store, node: Record, depth: nat)
    requires node.kind == "regression"
    requires Resolve(store, node.data.passNode) == Some(node)
    requires Resolve(store, node.data.failNode).Some?
    ensures Render(store, node, depth) == Err(DepthExceeded)
    decreases depth
  {
    if depth > 0 {
      SelfReferenceExhausts(store, node, depth - 1);
      RenderRegression(store, node, depth);
      RegressionCases(store, node, depth - 1);
    }
  }
}

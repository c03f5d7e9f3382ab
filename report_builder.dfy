/**
 * The `Reporter` object: each `_create_*_report` builds its list of parts
 * by appending to it, and `create_report` dispatches on the record's kind.
 * Every method is proved to compute the specification function of the
 * same name in module Reports; what a report contains is proved there.
 */
module ReportBuilder {
  import opened Wrappers
  import opened Reports
  import opened Sequences

  class Reporter {
    /** The record store the reporter's queries read. */
    const store: Store

    constructor (store: Store)
      ensures this.store == store
    {
      this.store := store;
    }

    /** `_create_test_case_report`: the log line and the platform come from the parent record. */
    method CreateTestCaseReport(node: Record) returns (r: Result<string, ReportError>)
      ensures r == CaseReport(store, node)
    {
      var parent := Resolve(store, node.parent);
      if parent.None? {
        return Err(MissingParent);
      }
      var parts: seq<string> := [];
      parts := parts + ["Test id: " + node.id];
      parts := parts + ["Name: " + node.name + " - suite: " + Show(node.group)];
      parts := parts + ["Date: " + node.created];
      parts := parts + ["Result: " + Show(node.result)];
      var artifacts := parent.value.artifacts;
      if artifacts.Some? && artifacts.value != map[] {
        if "lava_log" in artifacts.value {
          parts := parts + ["Log: " + artifacts.value["lava_log"]];
        } else {
          parts := parts + ["NO TEST LOG"];
        }
      } else {
        parts := parts + ["***** Parent has no artifacts? wtf"];
      }
      parts := parts + [KernelBlock(node.data.revision)];
      parts := parts + ["Platform: " + Show(parent.value.data.platform)];
      parts := parts + ["Lava job id: " + Show(node.data.jobId)];
      assert parts == CaseParts(node, parent.value);
      return Ok(Join(parts, "\n"));
    }

    /** `_create_test_suite_report`: the header, then one entry per record whose parent is the suite. */
    method CreateTestSuiteReport(node: Record) returns (r: Result<string, ReportError>)
      ensures r == SuiteReport(store, node)
    {
      if node.artifacts.None? {
        return Err(MissingArtifacts);
      }
      var artifacts := node.artifacts.value;
      var parts: seq<string> := [""];
      parts := parts + ["Test id: " + node.id];
      parts := parts + ["Name: " + node.name];
      parts := parts + ["Date: " + node.created];
      if "lava_log" in artifacts {
        parts := parts + ["Log: " + artifacts["lava_log"]];
      } else {
        parts := parts + ["NO TEST LOG"];
      }
      parts := parts + [KernelBlock(node.data.revision)];
      parts := parts + ["Platform: " + Show(node.data.platform)];
      parts := parts + ["Lava job id: " + Show(node.data.jobId)];
      assert parts == SuiteHead(node, artifacts);

      var testCases := Children(store, node.id);
      parts := parts + ["Test cases: " + NatToString(|testCases|)];
      ghost var head := parts;
      var i := 0;
      while i < |testCases|
        invariant 0 <= i <= |testCases|
        invariant parts == head + CaseLines(testCases[..i])
      {
        var testCase := testCases[i];
        ghost var before := parts;
        parts := parts + ["Test case: " + testCase.name];
        parts := parts + [Indent + "Test id: " + testCase.id];
        parts := parts + [Indent + "Result: " + Show(testCase.result) + "\n"];
        assert parts == before + CaseEntry(testCase);
        CaseLinesSnoc(testCases, i);
        AppendAssoc(head, CaseLines(testCases[..i]), CaseEntry(testCase));
        i := i + 1;
      }
      assert testCases[..i] == testCases;
      return Ok(Join(parts, "\n"));
    }

    /** `_create_kbuild_report`: the header, the artifacts template, the runtime and job id. */
    method CreateKbuildReport(node: Record) returns (r: Result<string, ReportError>)
      ensures r == KbuildReport(node)
    {
      if node.artifacts.None? {
        return Err(MissingArtifacts);
      }
      var parts: seq<string> := [""];
      parts := parts + ["Kbuild id: " + node.id];
      parts := parts + ["Name: " + node.name];
      parts := parts + ["Date: " + node.created];
      parts := parts + [KernelBlock(node.data.revision)];
      parts := parts + [ArtifactsBlock(node.artifacts.value)];
      parts := parts + ["Runtime: " + Show(node.data.runtime)];
      parts := parts + ["Job id: " + Show(node.data.jobId)];
      assert parts == KbuildParts(node, node.artifacts.value);
      return Ok(Join(parts, "\n"));
    }

    /**
     * `_create_regression_report`: resolve the pass and fail references,
     * then render each of them with `create_report`, pass first.
     */
    method CreateRegressionReport(node: Record, depth: nat) returns (r: Result<string, ReportError>)
      ensures r == RegressionReport(store, node, depth)
      decreases depth, 1
    {
      RegressionCases(store, node, depth);
      var passNode := Resolve(store, node.data.passNode);
      var failNode := Resolve(store, node.data.failNode);
      if passNode.None? || failNode.None? {
        return Err(UnresolvedNode);
      }
      var parts: seq<string> := [""];
      parts := parts + ["Name: " + node.name + " - suite: " + Show(node.group)];
      parts := parts + ["Date: " + node.created];
      parts := parts + ["Result: " + Show(node.result)];
      parts := parts + ["Passed node: ..."];
      assert parts == RegressionHead(node);
      var passReport := CreateReport(passNode.value, depth);
      if passReport.Err? {
        return Err(passReport.error);
      }
      parts := parts + [passReport.value];
      parts := parts + ["Failed node: ..."];
      var failReport := CreateReport(failNode.value, depth);
      if failReport.Err? {
        return Err(failReport.error);
      }
      parts := parts + [failReport.value];
      assert parts == RegressionHead(node) + [passReport.value, "Failed node: ...", failReport.value];
      return Ok(Join(parts, "\n"));
    }

    /** `create_report`: the kind dispatch, framed by the banner. */
    method CreateReport(node: Record, depth: nat) returns (r: Result<string, ReportError>)
      ensures r == Render(store, node, depth)
      decreases depth, 0
    {
      if depth == 0 {
        return Err(DepthExceeded);
      }
      var report;
      if node.kind == "test" {
        if node.isSuite {
          report := CreateTestSuiteReport(node);
        } else {
          report := CreateTestCaseReport(node);
        }
      } else if node.kind == "kbuild" {
        report := CreateKbuildReport(node);
      } else if node.kind == "regression" {
        report := CreateRegressionReport(node, depth - 1);
      } else {
        return Err(KindNotImplemented(node.kind));
      }
      if report.Err? {
        return Err(report.error);
      }
      return Ok(Banner + "\n" + report.value + "\n" + Banner + "\n");
    }
  }
}

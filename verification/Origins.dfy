/**
  Where runs come from: a session opened on its base, and a stream imported from a legacy session.
  The whole-run theorems start from any good world; these are good.
 */
module Origins {
  import opened Wrappers
  import opened Documents
  import opened Writes
  import opened History
  import opened Ancestry
  import opened Journals
  import opened Protocol
  import opened Soundness
  import opened Runs
  import opened Guarantees
  import opened LegacyImport

  /** Every run from an opened session keeps session and journal in step. */
  lemma RunsFromOpened(c: Context, epoch: string, calls: seq<Call>)
    requires epoch != "" && IsRun(c, Opened(c, epoch), calls)
    ensures Good(c, RunTo(c, Opened(c, epoch), calls))
  {
    OpenedIsGood(c, epoch);
    RunsStayGood(c, Opened(c, epoch), calls);
  }

  /** So does every run from an imported stream, recovery first. */
  lemma RunsFromImported(c: Context, s: Legacy, js: seq<Record>, calls: seq<Call>)
    requires c.shelf.session == s.session && c.shelf.base == s.base && Faithful(s, js)
    requires IsRun(c, World(js, None), calls)
    ensures Good(c, World(js, None)) && Good(c, RunTo(c, World(js, None), calls))
  {
    hide Replay, EventKept, ParentIsOlder, Materialized, FinalBranches;
    RunsStayGood(c, World(js, None), calls);
  }

  /** Recovering an imported stream gives the document the legacy session showed. */
  lemma ImportedHeadIsRecovered(c: Context, s: Legacy, js: seq<Record>, epoch: string)
    requires c.shelf.session == s.session && c.shelf.base == s.base && Faithful(s, js)
    ensures Rebuilt(c, js, epoch).Some? && Materialized(s, s.head) == Some(Rebuilt(c, js, epoch).value.book.doc)
  {
    hide Replay, EventKept, Materialized, FinalBranches, Rebuildable, ParentIsOlder;
    RebuiltIsInStep(c, js, epoch);
    HistoryTreeIsSound(s.session, s.base, js);
    MaterializedBase(s);
  }
}

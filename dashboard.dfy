/**
 * The dashboard statistics (src/components/DashboardScreen.tsx): counts
 * obtained by filtering the document list, and the priority and risk
 * labels shown for each document.
 */
module Dashboard {

  datatype Priority = PriorityHigh | PriorityMedium | PriorityLow
  datatype Status = Pending | Reviewed | Completed
  datatype RiskLevel = Critical | High | Medium | Low

  /** The dashboard's `Document` record. */
  datatype Document = Document(
    id: string,
    name: string,
    docType: string,
    priority: Priority,
    status: Status,
    tags: seq<string>,
    riskLevel: RiskLevel,
    dateAdded: string)

  /** The `stats` record shown in the four summary cards. */
  datatype Stats = Stats(total: nat, pending: nat, critical: nat, processed: nat)

  /** `Array.prototype.filter`: the elements that pass, in their order. */
  function Filter(s: seq<Document>, keep: Document -> bool): (r: seq<Document>)
    ensures |r| <= |s|
    ensures forall x :: x in r <==> x in s && keep(x)
    ensures forall x :: multiset(r)[x] == if keep(x) then multiset(s)[x] else 0
  {
    if s == [] then []
    else
      assert s == [s[0]] + s[1..];
      if keep(s[0]) then [s[0]] + Filter(s[1..], keep)
    else Filter(s[1..], keep)
  }

  /** Filtering by a test and by its negation splits the list: the two lengths add up to the whole. */
  lemma {:induction false} FilterComplement(s: seq<Document>, keep: Document -> bool, drop: Document -> bool)
    requires forall x :: drop(x) == !keep(x)
    ensures |Filter(s, keep)| + |Filter(s, drop)| == |s|
  {
    if s != [] {
      FilterComplement(s[1..], keep, drop);
    }
  }

  /** Filtering by a test that is the exclusive disjunction of two others counts the two separately. */
  lemma {:induction false} FilterDisjoint(s: seq<Document>, either: Document -> bool, left: Document -> bool, right: Document -> bool)
    requires forall x :: either(x) == (left(x) || right(x))
    requires forall x :: !(left(x) && right(x))
    ensures |Filter(s, either)| == |Filter(s, left)| + |Filter(s, right)|
  {
    if s != [] {
      FilterDisjoint(s[1..], either, left, right);
    }
  }

  /** The tests the `stats` filters apply. */
  predicate IsPending(d: Document) { d.status == Pending }
  predicate IsCritical(d: Document) { d.riskLevel == Critical }
  predicate IsProcessed(d: Document) { d.status != Pending }

  /**
   * `stats`: the total, the pending, the critical and the processed (not
   * pending) documents. Every document is either pending or processed.
   */
  function ComputeStats(docs: seq<Document>): (st: Stats)
    ensures st.total == |docs|
    ensures st.pending + st.processed == st.total
    ensures st.pending <= st.total && st.critical <= st.total && st.processed <= st.total
  {
    FilterComplement(docs, IsPending, IsProcessed);
    Stats(|docs|, |Filter(docs, IsPending)|, |Filter(docs, IsCritical)|, |Filter(docs, IsProcessed)|)
  }

  /** Since a status is pending, reviewed or completed, the processed count is reviewed plus completed. */
  lemma ProcessedIsReviewedPlusCompleted(docs: seq<Document>)
    ensures ComputeStats(docs).processed
         == |Filter(docs, (d: Document) => d.status == Reviewed)|
          + |Filter(docs, (d: Document) => d.status == Completed)|
  {
    FilterDisjoint(docs, IsProcessed,
      (d: Document) => d.status == Reviewed, (d: Document) => d.status == Completed);
  }

  /** The document list the dashboard renders. */
  const FixtureDocuments: seq<Document> := [
    Document("1", "Contrato Fornecedor ABC - Renovação 2024", "Contrato", PriorityHigh, Pending,
      ["Risco", "Financeiro", "Urgente"], Critical, "2024-01-15"),
    Document("2", "Relatório Financeiro Q1 2024", "Relatório", PriorityHigh, Reviewed,
      ["Financeiro", "Pendência"], High, "2024-01-14"),
    Document("3", "Proposta Comercial - Cliente XYZ", "Proposta", PriorityMedium, Completed,
      ["Financeiro"], Medium, "2024-01-13"),
    Document("4", "Política de Compliance Atualizada", "Política", PriorityLow, Reviewed,
      ["Risco"], Low, "2024-01-12")
  ]

  /** The number of fixture documents that pass each test, counted one document at a time. */
  lemma FilterLength(docs: seq<Document>, keep: Document -> bool, n: nat)
    requires docs == FixtureDocuments
    requires n == (if keep(docs[0]) then 1 else 0) + (if keep(docs[1]) then 1 else 0)
                + (if keep(docs[2]) then 1 else 0) + (if keep(docs[3]) then 1 else 0)
    ensures |Filter(docs, keep)| == n
  {
    FilterStep(docs, keep);
    FilterStep(docs[1..], keep);
    FilterStep(docs[1..][1..], keep);
    FilterStep(docs[1..][1..][1..], keep);
    assert docs[1..][1..][1..][1..] == [];
  }

  /** One step of `Filter`, stated on lengths. */
  lemma FilterStep(s: seq<Document>, keep: Document -> bool)
    requires s != []
    ensures |Filter(s, keep)| == (if keep(s[0]) then 1 else 0) + |Filter(s[1..], keep)|
  {
  }

  /** The summary cards of the fixture: 4 documents, 1 pending, 1 critical, 3 processed. */
  lemma FixtureStats()
    ensures ComputeStats(FixtureDocuments) == Stats(4, 1, 1, 3)
  {
    var docs := FixtureDocuments;
    FilterLength(docs, IsPending, 1);
    FilterLength(docs, IsCritical, 1);
    FilterLength(docs, IsProcessed, 3);
  }

  /** The priority badge text. */
  function PriorityLabel(p: Priority): (text: string)
    ensures text == "Alta" <==> p == PriorityHigh
    ensures text == "Média" <==> p == PriorityMedium
    ensures text == "Baixa" <==> p == PriorityLow
  {
    match p
    case PriorityHigh => "Alta"
    case PriorityMedium => "Média"
    case PriorityLow => "Baixa"
  }

  /** The risk text. */
  function RiskLabel(r: RiskLevel): (text: string)
    ensures text == "Crítico" <==> r == Critical
    ensures text == "Alto" <==> r == High
    ensures text == "Médio" <==> r == Medium
    ensures text == "Baixo" <==> r == Low
  {
    match r
    case Critical => "Crítico"
    case High => "Alto"
    case Medium => "Médio"
    case Low => "Baixo"
  }

  /** Different priorities and different risk levels are shown with different texts. */
  lemma LabelsInjective(p: Priority, q: Priority, r: RiskLevel, s: RiskLevel)
    ensures PriorityLabel(p) == PriorityLabel(q) ==> p == q
    ensures RiskLabel(r) == RiskLabel(s) ==> r == s
  {
  }
}

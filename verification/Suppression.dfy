/** The greedy conflict suppressor and the shortlist and watchlist cut from its output. */
module Suppression {
  import opened Wrappers
  import opened Decimals
  import opened Confluence
  import Q = Qualification

  datatype Side = Flat | Long | Short

  datatype Reason =
    | Veto(text: string) | BandSuppress | LowConfidence | OnePerCluster | RedundantExposure
    | ConflictWith(symbol: string)

  datatype ScoreCard = ScoreCard(
    score: real, tier: Tier, confidence: real, correlationPenalty: real, vetoes: seq<string>)

  datatype Ranked = Ranked(
    id: nat, symbol: string, asOf: int, card: ScoreCard, state: Q.Candidate, cluster: string, side: Side,
    suppression: Option<seq<Reason>>, handoff: bool)

  datatype Record = Record(symbol: string, reasons: seq<Reason>, vetoes: seq<string>, cluster: string)

  datatype Config = Config(onePerCluster: bool, minConfidence: real, thresholds: Q.Thresholds,
                           shortlistSize: int, watchlistSize: int)

  // ---------- currencies ----------

  function Clean(symbol: string): string
  {
    if symbol == "" then ""
    else
      var c := symbol[0];
      if c == '/' then Clean(symbol[1..])
      else [if 'a' <= c <= 'z' then (c as int - 32) as char else c] + Clean(symbol[1..])
  }

  function Split(symbol: string): (string, string)
  {
    var text := Clean(symbol);
    if |text| >= 6 then (text[..3], text[3..6]) else (text, "USD")
  }

  predicate SharedCurrency(a: string, b: string)
  {
    var (aBase, aQuote) := Split(a);
    var (bBase, bQuote) := Split(b);
    aBase in {bBase, bQuote} || aQuote in {bBase, bQuote}
  }

  /** Three characters that the clean-up leaves alone. */
  predicate Code(text: string) { |text| == 3 && Plain(text) }

  predicate Plain(text: string) { forall i :: 0 <= i < |text| ==> text[i] != '/' && !('a' <= text[i] <= 'z') }

  lemma {:induction false} CleanKeepsPlain(text: string)
    requires Plain(text)
    ensures Clean(text) == text
  {
    if text != "" {
      CleanKeepsPlain(text[1..]);
      assert text == [text[0]] + text[1..];
    }
  }

  lemma {:induction false} CleanDropsSlash(a: string, b: string)
    requires Plain(a) && Plain(b)
    ensures Clean(a + "/" + b) == a + b
  {
    if a == "" {
      CleanKeepsPlain(b);
      assert (a + "/" + b)[1..] == b;
    } else {
      CleanDropsSlash(a[1..], b);
      assert (a + "/" + b)[1..] == a[1..] + "/" + b;
      assert a + b == [a[0]] + (a[1..] + b);
    }
  }

  predicate IsLetter(c: char, capital: char)
  {
    || c == capital
    || ('a' <= c <= 'z' && 'A' <= capital <= 'Z' && c as int - 'a' as int == capital as int - 'A' as int)
  }

  /** The text with some of its capitals written small. */
  predicate Spells(text: string, capitals: string)
  {
    |text| == |capitals| && forall i :: 0 <= i < |text| ==> IsLetter(text[i], capitals[i])
  }

  lemma {:induction false} CleanSpelled(text: string, capitals: string)
    requires Spells(text, capitals) && forall i :: 0 <= i < |capitals| ==> !('a' <= capitals[i] <= 'z')
    ensures Clean(text) == Clean(capitals)
  {
    if text != "" {
      assert IsLetter(text[0], capitals[0]);
      CleanSpelled(text[1..], capitals[1..]);
    }
  }

  /** A pair of currencies, with or without a slash, in letters of any case. */
  predicate IsPair(symbol: string, base: string, quote: string)
  {
    Code(base) && Code(quote) && (Spells(symbol, base + quote) || Spells(symbol, base + "/" + quote))
  }

  lemma {:induction false} SplitOfPair(symbol: string, base: string, quote: string)
    requires IsPair(symbol, base, quote)
    ensures Split(symbol) == (base, quote)
  {
    if Spells(symbol, base + quote) {
      CleanSpelled(symbol, base + quote);
      CleanKeepsPlain(base + quote);
    } else {
      CleanSpelled(symbol, base + "/" + quote);
      CleanDropsSlash(base, quote);
    }
    assert Clean(symbol) == base + quote;
    assert (base + quote)[..3] == base && (base + quote)[3..6] == quote;
  }

  /** Two pairs share a currency exactly when one of the four matches of base and quote holds. */
  lemma {:induction false} PairsShareIff(
    a: string, base: string, quote: string, b: string, otherBase: string, otherQuote: string)
    requires IsPair(a, base, quote) && IsPair(b, otherBase, otherQuote)
    ensures SharedCurrency(a, b) <==>
            base == otherBase || base == otherQuote || quote == otherBase || quote == otherQuote
  {
    SplitOfPair(a, base, quote);
    SplitOfPair(b, otherBase, otherQuote);
  }

  function Hits(symbol: string, kept: seq<string>): nat
  {
    if kept == [] then 0
    else
      var other := kept[|kept| - 1];
      Hits(symbol, kept[..|kept| - 1]) + (if other != symbol && SharedCurrency(symbol, other) then 1 else 0)
  }

  function OverlapPenalty(symbol: string, kept: seq<string>): real
  {
    Max(0.0, Min(18.0, Hits(symbol, kept) as real * 6.0))
  }

  // ---------- one visit ----------

  function ApplyPenalty(item: Ranked, penalty: real): Ranked
  {
    if penalty <= 0.0 then item
    else
      var final := Clamp(item.card.score - penalty);
      item.(card := item.card.(score := final, tier := TierFor(final),
                               correlationPenalty := Clamp(item.card.correlationPenalty + penalty)))
  }

  function VetoReasons(vetoes: seq<string>): seq<Reason>
  {
    seq(|vetoes|, i requires 0 <= i < |vetoes| => Veto(vetoes[i]))
  }

  function When(b: bool, r: Reason): seq<Reason> { if b then [r] else [] }

  function MustSuppress(item: Ranked, c: Config): seq<Reason>
  {
    VetoReasons(item.card.vetoes)
    + When(item.card.tier == Suppress, BandSuppress)
    + When(item.card.confidence < c.minConfidence, LowConfidence)
  }

  /** Opposite directions on a shared currency. */
  predicate Conflicts(item: Ranked, other: Ranked)
  {
    SharedCurrency(item.symbol, other.symbol) && item.side != Flat && other.side != Flat && other.side != item.side
  }

  function ConflictReasons(item: Ranked, kept: seq<Ranked>): seq<Reason>
  {
    if kept == [] then []
    else
      var other := kept[|kept| - 1];
      ConflictReasons(item, kept[..|kept| - 1]) + When(Conflicts(item, other), ConflictWith(other.symbol))
  }

  /** What the walk has accumulated: the output so far, the records, and the clusters and symbols in use. */
  datatype Walk = Walk(kept: seq<Ranked>, records: seq<Record>, clusters: set<string>, symbols: seq<string>)

  const START := Walk([], [], {}, [])

  function Adjusted(w: Walk, item: Ranked): Ranked { ApplyPenalty(item, OverlapPenalty(item.symbol, w.symbols)) }

  function Reasons(w: Walk, item: Ranked, c: Config): seq<Reason>
  {
    MustSuppress(item, c)
    + When(c.onePerCluster && item.cluster != "" && item.cluster in w.clusters, OnePerCluster)
    + When(OverlapPenalty(item.symbol, w.symbols) != 0.0 && Adjusted(w, item).card.tier == Suppress, RedundantExposure)
    + ConflictReasons(item, w.kept)
  }

  /** The state machine's own answer if it suppresses, else a forced suppressed state. */
  function SuppressedState(item: Ranked, c: Config): (s: Q.Candidate)
    ensures s.state == Q.Suppressed
  {
    var card := Q.Card(item.card.score, item.card.tier, item.card.vetoes != []);
    var moved := Q.Next(item.state, Q.Scan(card, item.asOf, false), c.thresholds);
    if moved.state == Q.Suppressed then moved
    else item.state.(state := Q.Suppressed, reason := Q.BySuppressor, enteredAt := item.asOf, count := 0)
  }

  function Visit(w: Walk, item: Ranked, c: Config): Walk
  {
    var reasons, adjusted := Reasons(w, item, c), Adjusted(w, item);
    if reasons != [] then
      Walk(w.kept + [adjusted.(state := SuppressedState(adjusted, c), suppression := Some(reasons), handoff := false)],
           w.records + [Record(item.symbol, reasons, item.card.vetoes, item.cluster)], w.clusters, w.symbols)
    else
      Walk(w.kept + [adjusted], w.records,
           if item.cluster != "" then w.clusters + {item.cluster} else w.clusters, w.symbols + [item.symbol])
  }

  function WalkAll(ranked: seq<Ranked>, c: Config): Walk
  {
    if ranked == [] then START else Visit(WalkAll(ranked[..|ranked| - 1], c), ranked[|ranked| - 1], c)
  }

  /** The reasons the walk found against the candidate at position `i`. */
  function ReasonsAt(ranked: seq<Ranked>, c: Config, i: nat): seq<Reason>
    requires i < |ranked|
  {
    Reasons(WalkAll(ranked[..i], c), ranked[i], c)
  }

  predicate Survives(ranked: seq<Ranked>, c: Config, i: nat)
    requires i < |ranked|
  {
    ReasonsAt(ranked, c, i) == []
  }

  // ---------- what the reasons mean ----------

  /** The positions of the survivors so far that share a currency with a symbol. */
  function Overlaps(symbol: string, kept: seq<string>): set<nat>
  {
    set i: nat | i < |kept| && kept[i] != symbol && SharedCurrency(symbol, kept[i])
  }

  lemma {:induction false} OverlapsStep(symbol: string, kept: seq<string>, other: string)
    ensures Overlaps(symbol, kept + [other]) ==
            Overlaps(symbol, kept)
            + (if other != symbol && SharedCurrency(symbol, other) then {|kept|} else {})
  {
    var longer := kept + [other];
    assert forall i :: 0 <= i < |kept| ==> longer[i] == kept[i];
  }

  lemma {:induction false} HitsCountOverlaps(symbol: string, kept: seq<string>)
    ensures Hits(symbol, kept) == |Overlaps(symbol, kept)|
    decreases |kept|
  {
    if kept != [] {
      var n := |kept| - 1;
      HitsCountOverlaps(symbol, kept[..n]);
      OverlapsStep(symbol, kept[..n], kept[n]);
      assert kept == kept[..n] + [kept[n]];
      assert n !in Overlaps(symbol, kept[..n]);
    }
  }

  /** Each survivor on a shared currency costs six points, three of them the most there is; scores stay
      percentages and tiers follow them. */
  lemma {:induction false} PenaltyMeans(w: Walk, item: Ranked)
    requires 0.0 <= item.card.score <= 100.0
    ensures var n, card := |Overlaps(item.symbol, w.symbols)|, Adjusted(w, item).card;
            var cost := if n >= 3 then 18.0 else 6.0 * n as real;
            && card.score == (if item.card.score >= cost then item.card.score - cost else 0.0)
            && (n > 0 ==> card.tier == TierFor(card.score))
            && (n == 0 ==> Adjusted(w, item) == item)
            && card.confidence == item.card.confidence && card.vetoes == item.card.vetoes
            && (0.0 <= item.card.correlationPenalty <= 82.0 ==>
                  card.correlationPenalty == item.card.correlationPenalty + cost)
  {
    HitsCountOverlaps(item.symbol, w.symbols);
  }

  /** How a candidate comes to be suppressed: by the state machine, on a veto or the suppress tier, from a state
      it may leave that way; by holding a suppression; or else by force, entered now with its count reset. */
  lemma {:induction false} SuppressedStateMeans(item: Ranked, c: Config)
    ensures var s, from := SuppressedState(item, c), item.state.state;
            var bad := item.card.vetoes != [] || item.card.tier == Suppress;
            var open := from in {Q.Neutral, Q.Forming, Q.Qualified, Q.Confirmed, Q.Suppressed};
            if bad && open then
              s.reason == Q.ScoreOrVeto && s.count == 0
              && s.enteredAt == (if from == Q.Suppressed then item.state.enteredAt else item.asOf)
            else if from == Q.Suppressed && item.card.tier != Watch then
              s.reason == Q.Hold && s.count == item.state.count + 1 && s.enteredAt == item.state.enteredAt
            else s.reason == Q.BySuppressor && s.count == 0 && s.enteredAt == item.asOf
  {
  }

  lemma {:induction false} ConflictNamed(item: Ranked, kept: seq<Ranked>, symbol: string)
    ensures ConflictWith(symbol) in ConflictReasons(item, kept) <==>
            exists i :: 0 <= i < |kept| && kept[i].symbol == symbol && Opposed(item, kept[i])
    decreases |kept|
  {
    if kept != [] {
      var n := |kept| - 1;
      ConflictNamed(item, kept[..n], symbol);
      assert forall i :: 0 <= i < n ==> kept[..n][i] == kept[i];
      assert Conflicts(item, kept[n]) <==> Opposed(item, kept[n]);
    }
  }

  lemma {:induction false} OnlyConflicts(item: Ranked, kept: seq<Ranked>, r: Reason)
    requires r in ConflictReasons(item, kept)
    ensures r.ConflictWith?
    decreases |kept|
  {
    var n := |kept| - 1;
    if r in ConflictReasons(item, kept[..n]) { OnlyConflicts(item, kept[..n], r); }
  }

  /** One goes long and the other short on a shared currency. */
  predicate Opposed(item: Ranked, other: Ranked)
  {
    SharedCurrency(item.symbol, other.symbol) && {item.side, other.side} == {Long, Short}
  }

  lemma {:induction false} VetoNamed(vetoes: seq<string>, text: string)
    ensures Veto(text) in VetoReasons(vetoes) <==> text in vetoes
    ensures forall r :: r in VetoReasons(vetoes) ==> r.Veto?
  {
    if text in vetoes {
      var i :| 0 <= i < |vetoes| && vetoes[i] == text;
      assert VetoReasons(vetoes)[i] == Veto(text);
    }
  }

  lemma {:induction false} ConflictsNamed(item: Ranked, kept: seq<Ranked>)
    ensures forall r :: r in ConflictReasons(item, kept) ==> r.ConflictWith?
  {
    forall r | r in ConflictReasons(item, kept)
      ensures r.ConflictWith?
    {
      OnlyConflicts(item, kept, r);
    }
  }

  lemma {:induction false} ReasonIn(w: Walk, item: Ranked, c: Config, r: Reason)
    ensures r in Reasons(w, item, c) <==>
            || r in VetoReasons(item.card.vetoes)
            || (r == BandSuppress && item.card.tier == Suppress)
            || (r == LowConfidence && item.card.confidence < c.minConfidence)
            || (r == OnePerCluster && c.onePerCluster && item.cluster != "" && item.cluster in w.clusters)
            || (r == RedundantExposure && OverlapPenalty(item.symbol, w.symbols) != 0.0
                && Adjusted(w, item).card.tier == Suppress)
            || r in ConflictReasons(item, w.kept)
  {
  }

  lemma {:induction false} RedundancyMeans(w: Walk, item: Ranked)
    requires 0.0 <= item.card.score <= 100.0
    ensures OverlapPenalty(item.symbol, w.symbols) != 0.0 && Adjusted(w, item).card.tier == Suppress <==>
            Overlaps(item.symbol, w.symbols) != {} && Adjusted(w, item).card.score < 40.0
  {
    HitsCountOverlaps(item.symbol, w.symbols);
    PenaltyMeans(w, item);
  }

  /** Exactly what brings each reason against a candidate. */
  lemma {:induction false} ReasonsMean(w: Walk, item: Ranked, c: Config, text: string, symbol: string)
    requires 0.0 <= item.card.score <= 100.0
    ensures var reasons := Reasons(w, item, c);
            && (Veto(text) in reasons <==> text in item.card.vetoes)
            && (BandSuppress in reasons <==> item.card.tier == Suppress)
            && (LowConfidence in reasons <==> item.card.confidence < c.minConfidence)
            && (OnePerCluster in reasons <==>
                  c.onePerCluster && item.cluster != "" && item.cluster in w.clusters)
            && (RedundantExposure in reasons <==>
                  Overlaps(item.symbol, w.symbols) != {} && Adjusted(w, item).card.score < 40.0)
            && (ConflictWith(symbol) in reasons <==>
                  exists i :: 0 <= i < |w.kept| && w.kept[i].symbol == symbol && Opposed(item, w.kept[i]))
  {
    VetoNamed(item.card.vetoes, text);
    ConflictsNamed(item, w.kept);
    ConflictNamed(item, w.kept, symbol);
    RedundancyMeans(w, item);
    ReasonIn(w, item, c, Veto(text));
    ReasonIn(w, item, c, BandSuppress);
    ReasonIn(w, item, c, LowConfidence);
    ReasonIn(w, item, c, OnePerCluster);
    ReasonIn(w, item, c, RedundantExposure);
    ReasonIn(w, item, c, ConflictWith(symbol));
  }

  /** The reasons against one candidate, collected in source order. */
  method CollectReasons(item: Ranked, c: Config, w: Walk) returns (reasons: seq<Reason>)
    ensures reasons == Reasons(w, item, c)
  {
    reasons := MustSuppress(item, c);
    if c.onePerCluster && item.cluster != "" && item.cluster in w.clusters {
      reasons := reasons + [OnePerCluster];
    }
    if OverlapPenalty(item.symbol, w.symbols) != 0.0 && Adjusted(w, item).card.tier == Suppress {
      reasons := reasons + [RedundantExposure];
    }
    var conflicts := CollectConflicts(item, w.kept);
    reasons := reasons + conflicts;
  }

  method CollectConflicts(item: Ranked, kept: seq<Ranked>) returns (conflicts: seq<Reason>)
    ensures conflicts == ConflictReasons(item, kept)
  {
    conflicts := [];
    for j := 0 to |kept|
      invariant conflicts == ConflictReasons(item, kept[..j])
    {
      assert kept[..j + 1][..j] == kept[..j];
      if SharedCurrency(item.symbol, kept[j].symbol) && item.side != Flat {
        if kept[j].side != Flat && kept[j].side != item.side {
          conflicts := conflicts + [ConflictWith(kept[j].symbol)];
        }
      }
    }
    assert kept[..|kept|] == kept;
  }

  /** The loop over the ranking. */
  method SuppressRanked(ranked: seq<Ranked>, c: Config) returns (kept: seq<Ranked>, records: seq<Record>)
    ensures kept == WalkAll(ranked, c).kept && records == WalkAll(ranked, c).records
  {
    var w := START;
    for i := 0 to |ranked|
      invariant w == WalkAll(ranked[..i], c)
    {
      assert ranked[..i + 1][..i] == ranked[..i];
      w := VisitOne(w, ranked[i], c);
    }
    assert ranked[..|ranked|] == ranked;
    kept, records := w.kept, w.records;
  }

  method VisitOne(before: Walk, item: Ranked, c: Config) returns (w: Walk)
    ensures w == Visit(before, item, c)
  {
    w := before;
    var reasons := CollectReasons(item, c, before);
    var adjusted := Adjusted(before, item);
    if reasons != [] {
      w := w.(records := w.records + [Record(item.symbol, reasons, item.card.vetoes, item.cluster)],
              kept := w.kept + [adjusted.(state := SuppressedState(adjusted, c), suppression := Some(reasons),
                                          handoff := false)]);
      return;
    }
    if item.cluster != "" { w := w.(clusters := w.clusters + {item.cluster}); }
    w := w.(symbols := w.symbols + [item.symbol], kept := w.kept + [adjusted]);
  }

  // ---------- what the walk guarantees ----------

  lemma {:induction false} PrefixReasons(ranked: seq<Ranked>, c: Config, m: nat, i: nat)
    requires i < m <= |ranked|
    ensures ReasonsAt(ranked[..m], c, i) == ReasonsAt(ranked, c, i)
  {
    assert ranked[..m][..i] == ranked[..i];
  }

  /** Position by position: identity, cluster and side survive; a survivor keeps its state, anything else
      ends SUPPRESSED, carries its reasons and loses its handoff. */
  ghost predicate Faithful(before: Ranked, after: Ranked, reasons: seq<Reason>)
  {
    && after.id == before.id && after.symbol == before.symbol
    && after.cluster == before.cluster && after.side == before.side
    && after.card.score <= Max(before.card.score, 0.0)
    && (reasons == [] ==> after.state == before.state && after.suppression == before.suppression)
    && (reasons != [] ==>
          after.state.state == Q.Suppressed && after.suppression == Some(reasons) && !after.handoff)
  }

  lemma {:induction false} VisitShape(w: Walk, item: Ranked, c: Config)
    ensures var next := Visit(w, item, c);
            && |next.kept| == |w.kept| + 1 && next.kept[..|w.kept|] == w.kept
            && w.clusters <= next.clusters
            && (Reasons(w, item, c) == [] && item.cluster != "" ==> item.cluster in next.clusters)
            && Faithful(item, next.kept[|w.kept|], Reasons(w, item, c))
  {
  }

  lemma {:induction false} OutputLength(ranked: seq<Ranked>, c: Config)
    ensures |WalkAll(ranked, c).kept| == |ranked|
    decreases |ranked|
  {
    if ranked != [] {
      var n := |ranked| - 1;
      OutputLength(ranked[..n], c);
      VisitShape(WalkAll(ranked[..n], c), ranked[n], c);
    }
  }

  lemma {:induction false} EarlierOutputStays(ranked: seq<Ranked>, c: Config, i: nat)
    requires i + 1 < |ranked|
    ensures |WalkAll(ranked, c).kept| == |ranked| && |WalkAll(ranked[..|ranked| - 1], c).kept| == |ranked| - 1
    ensures WalkAll(ranked, c).kept[i] == WalkAll(ranked[..|ranked| - 1], c).kept[i]
    ensures WalkAll(ranked[..|ranked| - 1], c).clusters <= WalkAll(ranked, c).clusters
  {
    var w := WalkAll(ranked[..|ranked| - 1], c);
    OutputLength(ranked, c);
    OutputLength(ranked[..|ranked| - 1], c);
    VisitShape(w, ranked[|ranked| - 1], c);
    assert WalkAll(ranked, c).kept[..|w.kept|][i] == WalkAll(ranked, c).kept[i];
  }

  lemma {:induction false} LastOutput(ranked: seq<Ranked>, c: Config)
    requires ranked != []
    ensures FateAt(ranked, c, |ranked| - 1)
  {
    var n := |ranked| - 1;
    OutputLength(ranked, c);
    OutputLength(ranked[..n], c);
    VisitShape(WalkAll(ranked[..n], c), ranked[n], c);
  }

  /** The output at position `i` has the fate its reasons decide; the cluster of a survivor is remembered. */
  ghost predicate FateAt(ranked: seq<Ranked>, c: Config, i: nat)
    requires i < |ranked|
  {
    && |WalkAll(ranked, c).kept| == |ranked|
    && Faithful(ranked[i], WalkAll(ranked, c).kept[i], ReasonsAt(ranked, c, i))
    && (Survives(ranked, c, i) && ranked[i].cluster != "" ==> ranked[i].cluster in WalkAll(ranked, c).clusters)
  }

  /** Every symbol stays, in rank order, with the fate its reasons decide. */
  lemma {:induction false} OutputKeepsOrder(ranked: seq<Ranked>, c: Config, i: nat)
    requires i < |ranked|
    ensures FateAt(ranked, c, i)
    decreases |ranked|
  {
    var n := |ranked| - 1;
    if i == n {
      LastOutput(ranked, c);
    } else {
      OutputKeepsOrder(ranked[..n], c, i);
      PrefixReasons(ranked, c, n, i);
      EarlierOutputStays(ranked, c, i);
    }
  }

  lemma {:induction false} ConflictIsFound(item: Ranked, kept: seq<Ranked>, i: nat)
    requires i < |kept| && Conflicts(item, kept[i])
    ensures ConflictReasons(item, kept) != []
    decreases |kept|
  {
    if i < |kept| - 1 {
      ConflictIsFound(item, kept[..|kept| - 1], i);
    }
  }

  /** No two survivors share a cluster when one per cluster is asked for. */
  lemma {:induction false} SurvivorsHaveOwnClusters(ranked: seq<Ranked>, c: Config, i: nat, j: nat)
    requires i < j < |ranked| && Survives(ranked, c, i) && Survives(ranked, c, j)
    requires c.onePerCluster && ranked[i].cluster != ""
    ensures ranked[i].cluster != ranked[j].cluster
  {
    var before := ranked[..j];
    PrefixReasons(ranked, c, j, i);
    OutputKeepsOrder(before, c, i);
    ClusterReason(WalkAll(before, c), ranked[j], c);
  }

  lemma {:induction false} ClusterReason(w: Walk, item: Ranked, c: Config)
    requires Reasons(w, item, c) == []
    ensures !(c.onePerCluster && item.cluster != "" && item.cluster in w.clusters)
    ensures ConflictReasons(item, w.kept) == []
  {
    assert |Reasons(w, item, c)| >= |ConflictReasons(item, w.kept)|
         + |When(c.onePerCluster && item.cluster != "" && item.cluster in w.clusters, OnePerCluster)|;
  }

  /** A survivor opposes no earlier candidate on a shared currency, not even a suppressed one. */
  lemma {:induction false} SurvivorsDoNotConflict(ranked: seq<Ranked>, c: Config, i: nat, j: nat)
    requires i < j < |ranked| && Survives(ranked, c, j)
    ensures !Conflicts(ranked[j], ranked[i])
  {
    var before := ranked[..j];
    var kept := WalkAll(before, c).kept;
    OutputKeepsOrder(before, c, i);
    ClusterReason(WalkAll(before, c), ranked[j], c);
    assert Conflicts(ranked[j], kept[i]) <==> Conflicts(ranked[j], ranked[i]);
    if Conflicts(ranked[j], kept[i]) { ConflictIsFound(ranked[j], kept, i); }
  }

  function Suppressions(ranked: seq<Ranked>, c: Config): nat
  {
    if ranked == [] then 0
    else
      var n := |ranked| - 1;
      Suppressions(ranked[..n], c) + (if Survives(ranked, c, n) then 0 else 1)
  }

  /** One record per suppressed candidate. */
  lemma {:induction false} OneRecordEach(ranked: seq<Ranked>, c: Config)
    ensures |WalkAll(ranked, c).records| == Suppressions(ranked, c)
    ensures |WalkAll(ranked, c).symbols| == |ranked| - Suppressions(ranked, c)
    decreases |ranked|
  {
    if ranked != [] {
      OneRecordEach(ranked[..|ranked| - 1], c);
    }
  }

  // ---------- shortlist and watchlist ----------

  predicate Dead(r: Ranked) { r.state.state in {Q.Suppressed, Q.Invalidated, Q.Stale} }

  predicate ShortlistWorthy(r: Ranked) { !Dead(r) && r.card.tier in {Eligible, High, Top} }

  predicate WatchWorthy(r: Ranked, taken: set<nat>)
  {
    r.id !in taken && !Dead(r) && (r.card.tier == Watch || r.state.state == Q.Forming)
  }

  function Select(ranked: seq<Ranked>, keep: Ranked -> bool): seq<Ranked>
  {
    if ranked == [] then []
    else
      var n := |ranked| - 1;
      if keep(ranked[n]) then Select(ranked[..n], keep) + [ranked[n]] else Select(ranked[..n], keep)
  }

  function FirstOf(s: seq<Ranked>, size: nat): seq<Ranked> { if |s| <= size then s else s[..size] }

  function Ids(s: seq<Ranked>): set<nat> { set r | r in s :: r.id }

  lemma {:induction false} SelectGrows(ranked: seq<Ranked>, keep: Ranked -> bool, i: nat, j: nat)
    requires i <= j <= |ranked|
    ensures Select(ranked[..i], keep) <= Select(ranked[..j], keep)
    decreases j
  {
    if i < j {
      SelectGrows(ranked, keep, i, j - 1);
      assert ranked[..j][..j - 1] == ranked[..j - 1];
    }
  }

  lemma {:induction false} SelectMeans(ranked: seq<Ranked>, keep: Ranked -> bool, r: Ranked)
    ensures r in Select(ranked, keep) <==> r in ranked && keep(r)
    decreases |ranked|
  {
    if ranked != [] {
      var n := |ranked| - 1;
      SelectMeans(ranked[..n], keep, r);
      assert ranked == ranked[..n] + [ranked[n]];
    }
  }

  /** The first `size` worthy candidates in rank order. */
  method BuildShortlist(ranked: seq<Ranked>, size: int) returns (picked: seq<Ranked>)
    requires size >= 1
    ensures picked == FirstOf(Select(ranked, ShortlistWorthy), size)
  {
    picked := [];
    for i := 0 to |ranked|
      invariant picked == Select(ranked[..i], ShortlistWorthy) && |picked| < size
    {
      assert ranked[..i + 1][..i] == ranked[..i];
      if !Dead(ranked[i]) {
        if ranked[i].card.tier in {Eligible, High, Top} {
          picked := picked + [ranked[i]];
        }
        if |picked| >= size {
          SelectGrows(ranked, ShortlistWorthy, i + 1, |ranked|);
          assert ranked[..|ranked|] == ranked;
          return;
        }
      }
    }
    assert ranked[..|ranked|] == ranked;
  }

  /** The first `size` watchable candidates that are not on the shortlist. */
  method BuildWatchlist(ranked: seq<Ranked>, shortlist: seq<Ranked>, size: int) returns (picked: seq<Ranked>)
    requires size >= 1
    ensures picked == FirstOf(Select(ranked, r => WatchWorthy(r, Ids(shortlist))), size)
  {
    var taken := Ids(shortlist);
    ghost var keep := r => WatchWorthy(r, taken);
    picked := [];
    for i := 0 to |ranked|
      invariant picked == Select(ranked[..i], keep) && |picked| < size
    {
      assert ranked[..i + 1][..i] == ranked[..i];
      if ranked[i].id !in taken && !Dead(ranked[i]) {
        if ranked[i].card.tier == Watch || ranked[i].state.state == Q.Forming {
          picked := picked + [ranked[i]];
        }
        if |picked| >= size {
          SelectGrows(ranked, keep, i + 1, |ranked|);
          assert ranked[..|ranked|] == ranked;
          return;
        }
      }
    }
    assert ranked[..|ranked|] == ranked;
  }

  /** The two lists are within their sizes, share no candidate, and hold nothing suppressed, stale or
      invalidated. */
  lemma {:induction false} ListsAreSound(ranked: seq<Ranked>, shortSize: nat, watchSize: nat)
    ensures var short := FirstOf(Select(ranked, ShortlistWorthy), shortSize);
            var watch := FirstOf(Select(ranked, r => WatchWorthy(r, Ids(short))), watchSize);
            && |short| <= shortSize && |watch| <= watchSize
            && (forall r :: r in short || r in watch ==> r in ranked && !Dead(r))
            && Ids(short) !! Ids(watch)
  {
    var short := FirstOf(Select(ranked, ShortlistWorthy), shortSize);
    var keep := r => WatchWorthy(r, Ids(short));
    var watch := FirstOf(Select(ranked, keep), watchSize);
    forall r | r in short
      ensures r in ranked && !Dead(r)
    {
      SelectMeans(ranked, ShortlistWorthy, r);
    }
    forall r | r in watch
      ensures r in ranked && !Dead(r) && r.id !in Ids(short)
    {
      SelectMeans(ranked, keep, r);
    }
  }

  lemma {:induction false} SelectLength(ranked: seq<Ranked>, keep: Ranked -> bool, size: nat, r: Ranked)
    requires r in ranked && keep(r) && r !in FirstOf(Select(ranked, keep), size)
    ensures |FirstOf(Select(ranked, keep), size)| == size
  {
    SelectMeans(ranked, keep, r);
  }

  /** What is on the lists and what it takes to be left off: the shortlist holds eligible, high and top tiers,
      the watchlist watched tiers and forming states, nothing suppressed, invalidated or stale; a candidate fit
      for a list is missing only when the list is full. */
  lemma {:induction false} ListsAreComplete(ranked: seq<Ranked>, shortSize: nat, watchSize: nat, r: Ranked)
    requires r in ranked
    ensures var short := FirstOf(Select(ranked, ShortlistWorthy), shortSize);
            var watch := FirstOf(Select(ranked, x => WatchWorthy(x, Ids(short))), watchSize);
            var alive := r.state.state != Q.Suppressed && r.state.state != Q.Invalidated && r.state.state != Q.Stale;
            var fit := r.card.tier == Eligible || r.card.tier == High || r.card.tier == Top;
            var watched := r.card.tier == Watch || r.state.state == Q.Forming;
            && (r in short ==> alive && fit)
            && (alive && fit && r !in short ==> |short| == shortSize)
            && (r in watch ==> alive && watched && forall x :: x in short ==> x.id != r.id)
            && (alive && watched && (forall x :: x in short ==> x.id != r.id) && r !in watch ==> |watch| == watchSize)
  {
    var short := FirstOf(Select(ranked, ShortlistWorthy), shortSize);
    var keep := x => WatchWorthy(x, Ids(short));
    SelectMeans(ranked, ShortlistWorthy, r);
    SelectMeans(ranked, keep, r);
    if ShortlistWorthy(r) && r !in short { SelectLength(ranked, ShortlistWorthy, shortSize, r); }
    if keep(r) && r !in FirstOf(Select(ranked, keep), watchSize) { SelectLength(ranked, keep, watchSize, r); }
  }

  /** Both lists keep the order of the ranking. */
  lemma {:induction false} SelectKeepsOrder(ranked: seq<Ranked>, keep: Ranked -> bool, i: nat, j: nat)
    requires i < j < |Select(ranked, keep)|
    ensures exists a, b :: 0 <= a < b < |ranked| && ranked[a] == Select(ranked, keep)[i]
                        && ranked[b] == Select(ranked, keep)[j]
    decreases |ranked|
  {
    var n := |ranked| - 1;
    var before := Select(ranked[..n], keep);
    if j < |before| {
      SelectKeepsOrder(ranked[..n], keep, i, j);
      var a, b :| 0 <= a < b < n && ranked[..n][a] == before[i] && ranked[..n][b] == before[j];
      assert ranked[a] == Select(ranked, keep)[i] && ranked[b] == Select(ranked, keep)[j];
    } else {
      SelectMeans(ranked[..n], keep, before[i]);
      var a :| 0 <= a < n && ranked[..n][a] == before[i];
      assert ranked[a] == Select(ranked, keep)[i] && ranked[n] == Select(ranked, keep)[j];
    }
  }

  /** A candidate the suppressor rejected reaches neither list, whatever order the output is read in. */
  lemma {:induction false} SuppressedNeverListed(
    ranked: seq<Ranked>, c: Config, i: nat, reordered: seq<Ranked>, shortSize: nat, watchSize: nat)
    requires i < |ranked| && !Survives(ranked, c, i)
    ensures |WalkAll(ranked, c).kept| == |ranked|
    ensures var r := WalkAll(ranked, c).kept[i];
            var short := FirstOf(Select(reordered, ShortlistWorthy), shortSize);
            var watch := FirstOf(Select(reordered, x => WatchWorthy(x, Ids(short))), watchSize);
            r !in short && r !in watch
  {
    OutputKeepsOrder(ranked, c, i);
    ListsAreSound(reordered, shortSize, watchSize);
  }
}

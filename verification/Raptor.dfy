/** RAPTOR: layers of ever fewer summaries over a growing list of chunks. Clustering, the language
    model and the embedding are foreign; they are read from an oracle with stated ranges. */
module Raptor {
  import opened Wrappers

  datatype RawChunk = RawChunk(text: string, embedding: Option<seq<real>>)

  datatype Chunk = Chunk(text: string, embedding: seq<real>)

  /** What the foreign parts answer, by layer: the information criterion of a mixture with `k`
      components, the membership probabilities of each chunk in a mixture with `k` components, the
      order in which the `k` summarizing tasks finish, and what each of them produces. */
  datatype World = World(
    bic: (nat, nat) -> real,
    probs: (nat, nat, nat) -> seq<real>,
    order: (nat, nat) -> seq<nat>,
    summary: (nat, nat) -> Option<Chunk>)

  /** A task order lists every cluster once. */
  ghost predicate IsOrder(order: seq<nat>, k: nat) {
    && |order| == k
    && (forall i | 0 <= i < k :: order[i] < k)
    && (forall i, j | 0 <= i < j < k :: order[i] != order[j])
  }

  ghost predicate Lawful(w: World) {
    && (forall layer: nat, k: nat :: IsOrder(w.order(layer, k), k))
    && (forall layer: nat, k: nat, i: nat :: |w.probs(layer, k, i)| == k)
  }

  datatype Reason = NoClusterCount | NoLabel | EmptyCluster | TooManyErrors | CountMismatch

  datatype Result<T> = Ok(value: T) | Raised(reason: Reason)

  datatype Layer = Layer(lo: nat, hi: nat)

  function Min(a: int, b: int): int {
    if a <= b then a else b
  }

  // ----- filtering the input -----

  predicate Usable(c: RawChunk) {
    c.text != "" && c.embedding.Some? && c.embedding.value != []
  }

  function Usables(raw: seq<RawChunk>): (r: seq<Chunk>)
    ensures |r| <= |raw|
    ensures forall i | 0 <= i < |r| :: r[i].text != "" && r[i].embedding != []
    ensures (forall i | 0 <= i < |raw| :: Usable(raw[i])) ==> |r| == |raw|
  {
    if raw == [] then []
    else
      var init, c := raw[..|raw| - 1], raw[|raw| - 1];
      if Usable(c) then Usables(init) + [Chunk(c.text, c.embedding.value)] else Usables(init)
  }

  ghost predicate Ascending(at: seq<nat>) {
    forall i, j | 0 <= i < j < |at| :: at[i] < at[j]
  }

  /** The positions of the chunks that have a text and an embedding. */
  ghost predicate UsablePositions(raw: seq<RawChunk>, at: seq<nat>) {
    && Ascending(at)
    && forall i :: i in at <==>
         0 <= i < |raw| && raw[i].text != "" && raw[i].embedding.Some? && raw[i].embedding.value != []
  }

  /** The list begins with the chunks at these positions, unchanged. */
  ghost predicate BeginsWith(raw: seq<RawChunk>, at: seq<nat>, chunks: seq<Chunk>) {
    && |at| <= |chunks|
    && forall j | 0 <= j < |at| ::
         at[j] < |raw| && raw[at[j]] == RawChunk(chunks[j].text, Some(chunks[j].embedding))
  }

  lemma {:induction false} UsablesAt(raw: seq<RawChunk>) returns (at: seq<nat>)
    ensures UsablePositions(raw, at) && |at| == |Usables(raw)| && BeginsWith(raw, at, Usables(raw))
  {
    hide UsablePositions;
    if raw == [] {
      at := [];
      NoPositions();
    } else {
      var n := |raw| - 1;
      var before := UsablesAt(raw[..n]);
      at := before + if Usable(raw[n]) then [n] else [];
      PositionsMore(raw, before);
      assert Usables(raw) ==
             Usables(raw[..n]) + if Usable(raw[n]) then [Chunk(raw[n].text, raw[n].embedding.value)] else [];
    }
  }

  lemma NoPositions()
    ensures UsablePositions([], [])
  {
  }

  lemma PositionsMore(raw: seq<RawChunk>, at: seq<nat>)
    requires raw != [] && UsablePositions(raw[..|raw| - 1], at)
    ensures UsablePositions(raw, at + if Usable(raw[|raw| - 1]) then [|raw| - 1] else [])
  {
    var n := |raw| - 1;
    forall j | 0 <= j < |at| ensures at[j] < n {
      assert at[j] in at;
    }
    forall i | 0 <= i < n ensures raw[..n][i] == raw[i] {
    }
  }

  lemma BeginningStays(raw: seq<RawChunk>, at: seq<nat>, a: seq<Chunk>, b: seq<Chunk>)
    requires BeginsWith(raw, at, a) && a <= b
    ensures BeginsWith(raw, at, b)
  {
  }

  // ----- labels -----

  /** The first index whose probability exceeds the threshold. */
  function FirstAbove(row: seq<real>, threshold: real): (r: Option<nat>)
    ensures r.Some? ==>
              r.value < |row| && row[r.value] > threshold && forall j | 0 <= j < r.value :: row[j] <= threshold
    ensures r.None? ==> forall j | 0 <= j < |row| :: row[j] <= threshold
  {
    if row == [] then None
    else if row[0] > threshold then Some(0)
    else
      match FirstAbove(row[1..], threshold)
      case None =>
        assert forall j | 1 <= j < |row| :: row[j] == row[1..][j - 1];
        None
      case Some(k) =>
        assert forall j | 1 <= j < k + 1 :: row[j] == row[1..][j - 1];
        Some(k + 1)
  }

  function Sum(row: seq<real>): real {
    if row == [] then 0.0 else Sum(row[..|row| - 1]) + row[|row| - 1]
  }

  lemma {:induction false} SumBound(row: seq<real>, threshold: real)
    requires forall j | 0 <= j < |row| :: row[j] <= threshold
    ensures Sum(row) <= |row| as real * threshold
  {
    if row != [] {
      SumBound(row[..|row| - 1], threshold);
      assert |row| as real * threshold == (|row| - 1) as real * threshold + threshold;
    }
  }

  /** A row of probabilities always gets a label when the number of clusters times the threshold
      stays below one. */
  lemma EveryRowHasALabel(row: seq<real>, threshold: real)
    requires Sum(row) == 1.0 && Share(|row|, threshold) < 1.0
    ensures FirstAbove(row, threshold).Some?
  {
    if FirstAbove(row, threshold).None? {
      SumBound(row, threshold);
    }
  }

  lemma {:induction false} SumEven(row: seq<real>, q: real)
    requires forall j | 0 <= j < |row| :: row[j] == q
    ensures Sum(row) == |row| as real * q
  {
    if row != [] {
      SumEven(row[..|row| - 1], q);
      assert |row| as real * q == (|row| - 1) as real * q + q;
    }
  }

  /** Otherwise the even row over `k` clusters gets none. */
  lemma EvenRowHasNoLabel(k: nat, threshold: real)
    requires k > 0 && Share(k, threshold) >= 1.0
    ensures var row := seq(k, i => 1.0 / (k as real));
      Sum(row) == 1.0 && FirstAbove(row, threshold).None?
  {
    SumEven(seq(k, i => 1.0 / (k as real)), 1.0 / (k as real));
    var q := 1.0 / (k as real);
    assert q * (k as real) == 1.0;
    assert (q - threshold) * (k as real) <= 0.0;
    assert q <= threshold;
  }

  // ----- clusters -----

  /** The members of cluster `c`, as positions in the chunk list. */
  function Members(labels: seq<nat>, c: nat, start: nat): seq<nat> {
    if labels == [] then []
    else
      var i := |labels| - 1;
      Members(labels[..i], c, start) + (if labels[i] == c then [i + start] else [])
  }

  /** Exactly the positions labelled `c`, each once and in order. */
  lemma {:induction false} MembersExact(labels: seq<nat>, c: nat, start: nat)
    ensures forall i | 0 <= i < |labels| && labels[i] == c :: i + start in Members(labels, c, start)
    ensures forall x | x in Members(labels, c, start) :: start <= x < start + |labels| && labels[x - start] == c
    ensures forall j, k | 0 <= j < k < |Members(labels, c, start)| ::
      Members(labels, c, start)[j] < Members(labels, c, start)[k]
  {
    if labels != [] {
      var init := labels[..|labels| - 1];
      MembersExact(init, c, start);
      var before := Members(init, c, start);
      forall j | 0 <= j < |before| ensures before[j] < |labels| - 1 + start {
        assert before[j] in before;
      }
    }
  }

  /** Every position of a labelled layer belongs to exactly one cluster. */
  lemma ClustersPartition(labels: seq<nat>, k: nat, start: nat, i: nat)
    requires i < |labels| && forall j | 0 <= j < |labels| :: labels[j] < k
    ensures labels[i] < k && i + start in Members(labels, labels[i], start)
    ensures forall c: nat | i + start in Members(labels, c, start) :: c == labels[i]
  {
    MembersExact(labels, labels[i], start);
    forall c: nat | i + start in Members(labels, c, start) ensures c == labels[i] {
      MembersExact(labels, c, start);
    }
  }

  /** Together the clusters have as many members as the layer has chunks. */
  function TotalMembers(labels: seq<nat>, k: nat, start: nat): nat {
    if k == 0 then 0 else TotalMembers(labels, k - 1, start) + |Members(labels, k - 1, start)|
  }

  lemma {:induction false} TotalSplit(labels: seq<nat>, k: nat, start: nat)
    requires labels != []
    ensures TotalMembers(labels, k, start) ==
            TotalMembers(labels[..|labels| - 1], k, start) + (if labels[|labels| - 1] < k then 1 else 0)
  {
    if k > 0 {
      TotalSplit(labels, k - 1, start);
    }
  }

  lemma {:induction false} ClustersCoverTheLayer(labels: seq<nat>, k: nat, start: nat)
    requires forall j | 0 <= j < |labels| :: labels[j] < k
    ensures TotalMembers(labels, k, start) == |labels|
  {
    if labels == [] {
      NoMembers(k, start);
    } else {
      ClustersCoverTheLayer(labels[..|labels| - 1], k, start);
      TotalSplit(labels, k, start);
    }
  }

  lemma {:induction false} NoMembers(k: nat, start: nat)
    ensures TotalMembers([], k, start) == 0
  {
    if k > 0 {
      NoMembers(k - 1, start);
    }
  }

  lemma EmptyIsUnused(labels: seq<nat>, c: nat, start: nat)
    ensures Members(labels, c, start) == [] <==> c !in labels
  {
    MembersExact(labels, c, start);
    if c in labels {
      var i :| 0 <= i < |labels| && labels[i] == c;
      assert i + start in Members(labels, c, start);
    }
    var members := Members(labels, c, start);
    assert members != [] ==> members[0] in members;
  }

  // ----- what a layer is made of -----

  /** The texts of the chunks at the given positions. */
  function Texts(chunks: seq<Chunk>, at: seq<nat>): (r: seq<string>)
    requires forall i | 0 <= i < |at| :: at[i] < |chunks|
    ensures |r| == |at| && forall i | 0 <= i < |at| :: r[i] == chunks[at[i]].text
  {
    if at == [] then [] else Texts(chunks, at[..|at| - 1]) + [chunks[at[|at| - 1]].text]
  }

  /** What is asked for cluster `c`: the texts of the chunks of the layer `lo..hi`
      that are labelled `c`, in order. */
  ghost predicate Asked(chunks: seq<Chunk>, labels: seq<nat>, lo: nat, hi: nat, c: nat, prompt: seq<string>)
    requires lo <= hi <= |chunks| && hi <= |labels|
  {
    exists at: seq<nat> :: IsCluster(labels, lo, hi, c, at) && AsksFor(chunks, at, prompt)
  }

  ghost predicate IsCluster(labels: seq<nat>, lo: nat, hi: nat, c: nat, at: seq<nat>)
    requires hi <= |labels|
  {
    Ascending(at) && forall p: nat :: p in at <==> lo <= p < hi && labels[p] == c
  }

  ghost predicate AsksFor(chunks: seq<Chunk>, at: seq<nat>, prompt: seq<string>) {
    && |prompt| == |at|
    && forall i | 0 <= i < |at| :: at[i] < |chunks| && prompt[i] == chunks[at[i]].text
  }

  /** A label is the first cluster whose probability exceeds the threshold; a single cluster needs none. */
  ghost predicate IsLabel(w: World, threshold: real, layer: nat, k: nat, i: nat, lbl: nat) {
    if k == 1 then lbl == 0
    else
      var row := w.probs(layer, k, i);
      lbl < |row| && row[lbl] > threshold && forall j | 0 <= j < lbl :: row[j] <= threshold
  }

  /** How the layer `hi..next` was made of the layer `lo..hi` by `k` tasks: by the labels, what each
      task was asked, and that its answers are kept in the order in which the tasks finished. */
  ghost predicate Summarized(w: World, x: Settings, layer: nat, lo: nat, hi: nat, next: nat, k: nat,
                             chunks: seq<Chunk>, labels: seq<nat>, n: nat, prompts: seq<seq<string>>)
  {
    && lo <= hi <= |labels| && n <= hi <= next <= |chunks| && next <= hi + k && hi - n + k <= |prompts|
    && |w.order(layer, k)| == k
    && (if hi - lo == 2 then k == 1 else IsOptimal(w, layer, Min(x.maxCluster, hi - lo), k) && next == hi + k)
    && (next == hi ==> w.summary(layer, 0).None?)
    && Labelled(w, x.threshold, layer, k, labels[lo..hi])
    && (forall j: nat | j < k :: Asked(chunks, labels, lo, hi, w.order(layer, k)[j], prompts[hi - n + j]))
    && Answers(w, layer, k, chunks[hi..next])
  }

  /** The first of the counts below `limit` with the least criterion. */
  ghost predicate IsOptimal(w: World, layer: nat, limit: int, k: nat) {
    && 1 <= k < limit
    && (forall j: nat | 1 <= j < limit :: w.bic(layer, k) <= w.bic(layer, j))
    && (forall j: nat | 1 <= j < k :: w.bic(layer, k) < w.bic(layer, j))
  }

  ghost predicate Labelled(w: World, threshold: real, layer: nat, k: nat, lbls: seq<nat>) {
    forall i | 0 <= i < |lbls| :: IsLabel(w, threshold, layer, k, i, lbls[i])
  }

  /** Each of these chunks is the answer of a task, in the order in which they finished. */
  ghost predicate Answers(w: World, layer: nat, k: nat, made: seq<Chunk>) {
    && |made| <= |w.order(layer, k)|
    && forall j | 0 <= j < |made| :: w.summary(layer, w.order(layer, k)[j]) == Some(made[j])
  }

  lemma SummarizedStays(w: World, x: Settings, layer: nat, lo: nat, hi: nat, next: nat, k: nat,
                        chunks: seq<Chunk>, labels: seq<nat>, n: nat, prompts: seq<seq<string>>,
                        chunks': seq<Chunk>, labels': seq<nat>, prompts': seq<seq<string>>)
    requires Summarized(w, x, layer, lo, hi, next, k, chunks, labels, n, prompts)
    requires chunks <= chunks' && labels <= labels' && prompts <= prompts'
    ensures Summarized(w, x, layer, lo, hi, next, k, chunks', labels', n, prompts')
  {
    hide Labelled, Asked, Answers;
    assert labels'[lo..hi] == labels[lo..hi] && chunks'[hi..next] == chunks[hi..next];
    forall j: nat | j < k ensures Asked(chunks', labels', lo, hi, w.order(layer, k)[j], prompts'[hi - n + j]) {
      AskedStays(chunks, labels, lo, hi, w.order(layer, k)[j], prompts[hi - n + j], chunks', labels');
    }
  }

  lemma AskedStays(chunks: seq<Chunk>, labels: seq<nat>, lo: nat, hi: nat, c: nat, prompt: seq<string>,
                   chunks': seq<Chunk>, labels': seq<nat>)
    requires lo <= hi <= |chunks| && hi <= |labels| && Asked(chunks, labels, lo, hi, c, prompt)
    requires chunks <= chunks' && labels <= labels'
    ensures Asked(chunks', labels', lo, hi, c, prompt)
  {
    var at: seq<nat> :| IsCluster(labels, lo, hi, c, at) && AsksFor(chunks, at, prompt);
    hide Ascending;
    assert IsCluster(labels', lo, hi, c, at) by {
      assert forall p: nat | p < hi :: labels'[p] == labels[p];
    }
    assert AsksFor(chunks', at, prompt);
  }

  /** The whole list is such layers, one made of the other. */
  ghost predicate MadeOfLayers(w: World, x: Settings, layers: seq<Layer>, ks: seq<nat>, chunks: seq<Chunk>,
                               labels: seq<nat>, n: nat, prompts: seq<seq<string>>)
  {
    && |layers| == |ks| + 1
    && forall i | 0 <= i < |ks| ::
         Summarized(w, x, i, layers[i].lo, layers[i].hi, layers[i + 1].hi, ks[i], chunks, labels, n, prompts)
  }

  lemma LayersStay(w: World, x: Settings, layers: seq<Layer>, ks: seq<nat>, chunks: seq<Chunk>, labels: seq<nat>,
                   n: nat, prompts: seq<seq<string>>, chunks': seq<Chunk>, labels': seq<nat>,
                   prompts': seq<seq<string>>)
    requires MadeOfLayers(w, x, layers, ks, chunks, labels, n, prompts)
    requires chunks <= chunks' && labels <= labels' && prompts <= prompts'
    ensures MadeOfLayers(w, x, layers, ks, chunks', labels', n, prompts')
  {
    hide Summarized;
    forall i | 0 <= i < |ks|
      ensures Summarized(w, x, i, layers[i].lo, layers[i].hi, layers[i + 1].hi, ks[i], chunks', labels', n, prompts')
    {
      SummarizedStays(w, x, i, layers[i].lo, layers[i].hi, layers[i + 1].hi, ks[i], chunks, labels, n, prompts,
                      chunks', labels', prompts');
    }
  }

  /** Every chunk but those of the last layer went into exactly one task of its layer. */
  lemma EachChunkIsSummarizedOnce(w: World, x: Settings, layer: nat, lo: nat, hi: nat, next: nat, k: nat,
                                  chunks: seq<Chunk>, labels: seq<nat>, n: nat, prompts: seq<seq<string>>, p: nat)
      returns (j: nat)
    requires Lawful(w) && Summarized(w, x, layer, lo, hi, next, k, chunks, labels, n, prompts) && lo <= p < hi
    ensures j < k && chunks[p].text in prompts[hi - n + j]
    ensures forall i: nat | i < k :: w.order(layer, k)[i] == labels[p] <==> i == j
  {
    assert labels[lo..hi][p - lo] == labels[p];
    assert IsOrder(w.order(layer, k), k);
    OrderCovers(w.order(layer, k), k);
    assert |w.probs(layer, k, p - lo)| == k;
    assert labels[p] in w.order(layer, k);
    j :| j < k && w.order(layer, k)[j] == labels[p];
    assert Asked(chunks, labels, lo, hi, labels[p], prompts[hi - n + j]);
    AskedHas(chunks, labels, lo, hi, prompts[hi - n + j], p);
  }

  lemma AskedHas(chunks: seq<Chunk>, labels: seq<nat>, lo: nat, hi: nat, prompt: seq<string>, p: nat)
    requires lo <= p < hi <= |chunks| && hi <= |labels| && Asked(chunks, labels, lo, hi, labels[p], prompt)
    ensures chunks[p].text in prompt
  {
    hide Ascending;
    var at: seq<nat> :| IsCluster(labels, lo, hi, labels[p], at) && AsksFor(chunks, at, prompt);
    assert p in at;
    var i :| 0 <= i < |at| && at[i] == p;
    assert prompt[i] == chunks[p].text;
  }

  // ----- what becomes of a layer -----

  datatype Settings = Settings(maxCluster: int, threshold: real, maxErrors: nat)

  /** The first of the counts 1 up to but not including `limit` with the least criterion. */
  function Best(w: World, layer: nat, limit: nat): (k: nat)
    requires limit >= 2
    ensures 1 <= k < limit
    ensures forall j: nat | 1 <= j < limit :: w.bic(layer, k) <= w.bic(layer, j)
    ensures forall j: nat | 1 <= j < k :: w.bic(layer, k) < w.bic(layer, j)
  {
    if limit == 2 then 1
    else
      var before := Best(w, layer, limit - 1);
      if w.bic(layer, limit - 1) < w.bic(layer, before) then limit - 1 else before
  }

  /** The label of chunk `i` of a layer. */
  function LabelAt(w: World, threshold: real, layer: nat, k: nat, i: nat): Option<nat> {
    if k == 1 then Some(0) else FirstAbove(w.probs(layer, k, i), threshold)
  }

  ghost predicate AllLabelled(w: World, threshold: real, layer: nat, size: nat, k: nat) {
    forall i: nat | i < size :: LabelAt(w, threshold, layer, k, i).Some?
  }

  /** Every one of the `k` clusters is the label of some chunk. */
  ghost predicate AllUsed(w: World, threshold: real, layer: nat, size: nat, k: nat) {
    forall c: nat | c < k :: UsedBy(w, threshold, layer, size, k, c)
  }

  ghost predicate UsedBy(w: World, threshold: real, layer: nat, size: nat, k: nat, c: nat) {
    exists i: nat | i < size :: LabelAt(w, threshold, layer, k, i) == Some(c)
  }

  /** The clusters that cannot be summarized. */
  ghost function Failed(w: World, layer: nat, k: nat): set<nat> {
    set c: nat | c < k && w.summary(layer, c).None?
  }

  /** Why a layer of at least three chunks raises, after `errors` earlier failures; None when it
      is summarized in full. */
  ghost function LayerFate(w: World, x: Settings, layer: nat, size: nat, errors: nat): Option<Reason> {
    var limit := Min(x.maxCluster, size);
    if limit <= 1 then Some(NoClusterCount)
    else
      var k := Best(w, layer, limit);
      if !AllLabelled(w, x.threshold, layer, size, k) then Some(NoLabel)
      else if !AllUsed(w, x.threshold, layer, size, k) then Some(EmptyCluster)
      else if Failed(w, layer, k) == {} then None
      else if errors + |Failed(w, layer, k)| >= x.maxErrors then Some(TooManyErrors)
      else Some(CountMismatch)
  }

  /** Why the main loop raises from a layer of `size` chunks on; None when it returns. */
  ghost function Fate(w: World, x: Settings, layer: nat, size: nat, errors: nat): Option<Reason>
    decreases size
  {
    if size <= 1 then None
    else if size == 2 then
      if w.summary(layer, 0).None? && errors + 1 >= x.maxErrors then Some(TooManyErrors) else None
    else
      match LayerFate(w, x, layer, size, errors)
      case Some(reason) => Some(reason)
      case None => Fate(w, x, layer + 1, Best(w, layer, Min(x.maxCluster, size)), errors)
  }

  /** All rows are rows of probabilities. */
  ghost predicate Probable(w: World) {
    forall layer: nat, k: nat, i: nat | k >= 1 :: Sum(w.probs(layer, k, i)) == 1.0
  }

  /** When the largest possible number of clusters times the threshold is below one, no chunk is
      ever left without a label. */
  lemma {:induction false} LabelsNeverLack(w: World, x: Settings, layer: nat, size: nat, errors: nat)
    requires Lawful(w) && Probable(w) && (x.maxCluster >= 1 ==> Share(x.maxCluster - 1, x.threshold) < 1.0)
    ensures Fate(w, x, layer, size, errors) != Some(NoLabel)
    decreases size
  {
    var limit := Min(x.maxCluster, size);
    if size >= 3 && limit >= 2 {
      var k := Best(w, layer, limit);
      ShareGrows(k, x.maxCluster - 1, x.threshold);
      forall i: nat | i < size ensures LabelAt(w, x.threshold, layer, k, i).Some? {
        if k > 1 {
          EveryRowHasALabel(w.probs(layer, k, i), x.threshold);
        }
      }
      LabelsNeverLack(w, x, layer + 1, k, errors);
    }
  }

  /** A number of clusters times the threshold. */
  function Share(k: nat, threshold: real): real {
    k as real * threshold
  }

  lemma {:induction false} ShareGrows(a: nat, b: nat, threshold: real)
    requires a <= b
    ensures Share(a, threshold) <= 0.0 || Share(a, threshold) <= Share(b, threshold)
    decreases b
  {
    if threshold < 0.0 {
      ShareSign(a, threshold);
    } else if a < b {
      ShareGrows(a, b - 1, threshold);
      assert Share(b, threshold) == Share(b - 1, threshold) + threshold;
    }
  }

  lemma {:induction false} ShareSign(a: nat, threshold: real)
    requires threshold < 0.0
    ensures Share(a, threshold) <= 0.0
  {
    if a > 0 {
      ShareSign(a - 1, threshold);
      assert Share(a, threshold) == Share(a - 1, threshold) + threshold;
    }
  }

  // ----- the size bound -----

  function Triangle(m: nat): nat {
    m * (m - 1) / 2
  }

  lemma TriangleStep(m: nat)
    ensures Triangle(m + 1) == Triangle(m) + m
  {
    if m > 0 {
      assert (m + 1) * m == m * (m - 1) + 2 * m;
    }
  }

  lemma {:induction false} TriangleGrows(a: nat, b: nat)
    requires a <= b
    ensures Triangle(a) <= Triangle(b)
    decreases b
  {
    if a < b {
      TriangleGrows(a, b - 1);
      TriangleStep(b - 1);
    }
  }

  /** The layers tile the chunk list: they are consecutive intervals, each but the first strictly
      smaller than the one before. */
  ghost predicate Tiles(layers: seq<Layer>, n: nat, start: nat, end: nat) {
    && layers != [] && layers[0] == Layer(0, n)
    && layers[|layers| - 1] == Layer(start, end)
    && (forall i | 0 <= i < |layers| :: layers[i].lo <= layers[i].hi)
    && (forall i | 0 < i < |layers| ::
          layers[i].lo == layers[i - 1].hi && layers[i].hi - layers[i].lo < layers[i - 1].hi - layers[i - 1].lo)
  }

  /** An upper bound on the chunks that clustering `n` chunks can end with. */
  function SizeBound(maxCluster: int, n: nat): nat {
    var m := if Min(maxCluster, n) < 2 then 2 else Min(maxCluster, n);
    n + Triangle(m)
  }

  /** What is left to spend of the size bound, after the layer `start..end`. */
  ghost predicate WithinBound(maxCluster: int, n: nat, start: nat, end: nat) {
    && start <= end
    && (start == 0 ==> end == n)
    && (start > 0 ==> end + Triangle(end - start) <= SizeBound(maxCluster, n))
  }

  lemma BoundKept(maxCluster: int, n: nat, start: nat, end: nat, k: nat)
    requires WithinBound(maxCluster, n, start, end)
    requires 0 <= k < end - start && (k == 1 || k == 0 || k < maxCluster)
    ensures WithinBound(maxCluster, n, end, end + k)
  {
    TriangleStep(k);
    if start == 0 {
      TriangleGrows(k + 1, if Min(maxCluster, n) < 2 then 2 else Min(maxCluster, n));
    } else {
      TriangleGrows(k + 1, end - start);
    }
  }

  lemma BoundAtEnd(maxCluster: int, n: nat, start: nat, end: nat)
    requires WithinBound(maxCluster, n, start, end)
    ensures end <= SizeBound(maxCluster, n)
  {
    if start == 0 {
      TriangleGrows(0, if Min(maxCluster, n) < 2 then 2 else Min(maxCluster, n));
    }
  }

  /** For a cluster limit of at least two the bound is the one of a full staircase of layers. */
  lemma BoundIsStaircase(maxCluster: nat, n: nat)
    requires maxCluster >= 2
    ensures SizeBound(maxCluster, n) <= n + maxCluster * (maxCluster - 1) / 2
  {
    TriangleGrows(if Min(maxCluster, n) < 2 then 2 else Min(maxCluster, n), maxCluster);
  }

  // ----- the builder -----

  class Builder {
    const maxCluster: int
    const threshold: real
    const maxErrors: nat
    const world: World
    var errorCount: nat
    var chunks: seq<Chunk>
    var layers: seq<Layer>
    var labels: seq<nat>
    ghost var prompts: seq<seq<string>> // what each task was asked to summarize

    constructor (maxCluster: int, threshold: real, maxErrors: int, world: World)
      ensures this.maxCluster == maxCluster && this.threshold == threshold && this.world == world
      ensures this.maxErrors >= 1 && (maxErrors >= 1 ==> this.maxErrors == maxErrors)
      ensures errorCount == 0
    {
      this.maxCluster, this.threshold, this.world := maxCluster, threshold, world;
      this.maxErrors := if maxErrors < 1 then 1 else maxErrors;
      errorCount, chunks, layers, labels, prompts := 0, [], [], [], [];
    }

    ghost function Settled(): Settings {
      Settings(maxCluster, threshold, maxErrors)
    }

    /** `_get_optimal_clusters`: the first count with the least criterion, among 1 up to but not
        including the smaller of the limit and the layer size. */
    method GetOptimalClusters(layer: nat, size: nat) returns (r: Result<nat>)
      ensures r.Raised? <==> Min(maxCluster, size) <= 1
      ensures r.Raised? ==> r.reason == NoClusterCount
      ensures r.Ok? ==> IsOptimal(world, layer, Min(maxCluster, size), r.value)
      ensures r.Ok? ==> r.value == Best(world, layer, Min(maxCluster, size))
    {
      var limit := Min(maxCluster, size);
      if limit <= 1 {
        return Raised(NoClusterCount);
      }
      var best: nat := 1;
      var k: nat := 2;
      while k < limit
        invariant 1 <= best < k <= limit && best == Best(world, layer, k)
      {
        if world.bic(layer, k) < world.bic(layer, best) {
          best := k;
        }
        k := k + 1;
      }
      r := Ok(best);
    }

    /** The label of each chunk of a layer. */
    method AssignLabels(layer: nat, size: nat, k: nat) returns (r: Result<seq<nat>>)
      requires Lawful(world) && k >= 1
      ensures r.Ok? <==> AllLabelled(world, threshold, layer, size, k)
      ensures r.Raised? ==> r.reason == NoLabel
      ensures r.Ok? ==> |r.value| == size && forall i: nat | i < size ::
        r.value[i] < k && LabelAt(world, threshold, layer, k, i) == Some(r.value[i])
    {
      if k == 1 {
        return Ok(seq(size, i => 0));
      }
      var lbls := [];
      for i := 0 to size
        invariant |lbls| == i
        invariant forall j: nat | j < i :: lbls[j] < k && LabelAt(world, threshold, layer, k, j) == Some(lbls[j])
      {
        var lbl := FirstAbove(world.probs(layer, k, i), threshold);
        if lbl.None? {
          assert LabelAt(world, threshold, layer, k, i).None?;
          return Raised(NoLabel);
        }
        lbls := lbls + [lbl.value];
      }
      r := Ok(lbls);
    }

    /** One task per cluster; a cluster without members fails the assertion of the source. */
    method CreateTasks(lbls: seq<nat>, k: nat, start: nat) returns (r: Result<seq<seq<nat>>>)
      requires forall i | 0 <= i < |lbls| :: lbls[i] < k
      ensures r.Raised? ==> r.reason == EmptyCluster
      ensures r.Ok? <==> forall c: nat | c < k :: c in lbls
      ensures r.Ok? ==> |r.value| == k && forall c | 0 <= c < k :: r.value[c] == Members(lbls, c, start)
    {
      var tasks := [];
      var c: nat := 0;
      while c < k
        invariant c <= k && |tasks| == c && forall j | 0 <= j < c :: tasks[j] == Members(lbls, j, start)
        invariant forall j: nat | j < c :: j in lbls
      {
        var members := Members(lbls, c, start);
        EmptyIsUnused(lbls, c, start);
        if members == [] {
          return Raised(EmptyCluster);
        }
        tasks := tasks + [members];
        c := c + 1;
      }
      r := Ok(tasks);
    }

    /** One run of `summarize`: append the summary, or count the failure and abort at the limit. */
    method Summarize(layer: nat, c: nat, members: seq<nat>) returns (aborted: bool)
      requires forall i | 0 <= i < |members| :: members[i] < |chunks|
      modifies this`chunks, this`errorCount, this`prompts
      ensures prompts == old(prompts) + [Texts(old(chunks), members)]
      ensures world.summary(layer, c).Some? ==>
        !aborted && chunks == old(chunks) + [world.summary(layer, c).value] && errorCount == old(errorCount)
      ensures world.summary(layer, c).None? ==>
        chunks == old(chunks) && errorCount == old(errorCount) + 1 && (aborted <==> errorCount >= maxErrors)
    {
      prompts := prompts + [Texts(chunks, members)];
      match world.summary(layer, c)
      case Some(chunk) =>
        chunks := chunks + [chunk];
        aborted := false;
      case None =>
        errorCount := errorCount + 1;
        aborted := errorCount >= maxErrors;
    }

    /** The `i`-th task to finish; `first` and `asked` are chunks and prompts before the layer. */
    method RunTask(layer: nat, tasks: seq<seq<nat>>, i: nat, ghost first: seq<Chunk>, ghost asked: seq<seq<string>>,
                   ghost all: bool)
        returns (aborted: bool)
      requires Lawful(world) && i < |tasks| && InRange(tasks, |first|) && first <= chunks
      requires AskedFor(world, layer, tasks, i, first, asked, prompts)
      requires all ==> AnsweredBy(world, layer, |tasks|, i, first, chunks)
      modifies this`chunks, this`errorCount, this`prompts
      ensures |world.order(layer, |tasks|)| == |tasks| && old(chunks) <= chunks
      ensures var failed := world.summary(layer, world.order(layer, |tasks|)[i]).None?;
        && |chunks| == |old(chunks)| + (if failed then 0 else 1)
        && errorCount == old(errorCount) + (if failed then 1 else 0)
        && (aborted <==> failed && errorCount >= maxErrors)
        && (all && !failed ==> AnsweredBy(world, layer, |tasks|, i + 1, first, chunks))
      ensures AskedFor(world, layer, tasks, i + 1, first, asked, prompts)
    {
      var c := world.order(layer, |tasks|)[i];
      OrderIsLawful(world, layer, |tasks|);
      OrderAt(world.order(layer, |tasks|), |tasks|, i);
      TaskInRange(tasks, |first|, c);
      hide Lawful, AnsweredBy, AskedFor, InRange, IsOrder;
      aborted := Summarize(layer, c, tasks[c]);
      AskedMore(world, layer, tasks, i, first, old(chunks), asked, old(prompts), prompts);
      if world.summary(layer, c).Some? {
        AnsweredMore(world, layer, |tasks|, i, first, old(chunks), chunks, all);
      }
    }

    /** All tasks of a layer, in the order in which they finish, up to the first that aborts. */
    method RunTasks(layer: nat, tasks: seq<seq<nat>>) returns (aborted: bool, finished: nat)
      requires Lawful(world)
      requires InRange(tasks, |chunks|)
      modifies this`chunks, this`errorCount, this`prompts
      ensures finished <= |tasks| && (!aborted ==> finished == |tasks|)
      ensures old(chunks) <= chunks && errorCount >= old(errorCount)
      ensures (|chunks| - |old(chunks)|) + (errorCount - old(errorCount)) == finished
      ensures aborted <==>
        Failed(world, layer, |tasks|) != {} && old(errorCount) + |Failed(world, layer, |tasks|)| >= maxErrors
      ensures aborted ==> errorCount >= maxErrors
      ensures !aborted ==> errorCount == old(errorCount) + |Failed(world, layer, |tasks|)|
      ensures errorCount == old(errorCount) ==> AnsweredBy(world, layer, |tasks|, finished, old(chunks), chunks)
      ensures AskedFor(world, layer, tasks, finished, old(chunks), old(prompts), prompts)
    {
      var k := |tasks|;
      ghost var order := world.order(layer, k);
      OrderIsLawful(world, layer, k);
      hide Lawful, Failed, IsOrder, AnsweredBy, AskedFor, InRange, FailedAmong;
      NothingRun(world, layer, tasks, chunks, prompts);
      finished, aborted := 0, false;
      while finished < k
        invariant finished <= k && old(chunks) <= chunks
        invariant (|chunks| - |old(chunks)|) + (errorCount - old(errorCount)) == finished
        invariant errorCount == old(errorCount) + FailedAmong(world, layer, order[..finished])
        invariant errorCount < maxErrors || errorCount == old(errorCount)
        invariant errorCount == old(errorCount) ==> AnsweredBy(world, layer, k, finished, old(chunks), chunks)
        invariant AskedFor(world, layer, tasks, finished, old(chunks), old(prompts), prompts)
      {
        FailedStep(world, layer, order, finished);
        aborted := RunTask(layer, tasks, finished, old(chunks), old(prompts), errorCount == old(errorCount));
        finished := finished + 1;
        if aborted {
          FailedBound(world, layer, k, order, finished);
          return;
        }
      }
      FailedBound(world, layer, k, order, finished);
    }

    /** The part of the main loop that handles a layer of at least three chunks. It succeeds exactly
        when no obstacle is in the way and no cluster fails. */
    method ClusterLayer(layer: nat, start: nat, end: nat, ghost n: nat) returns (r: Result<nat>)
      requires Lawful(world) && start + 3 <= end == |chunks| && |labels| == start
      requires n <= end && |prompts| == end - n
      modifies this`chunks, this`errorCount, this`labels, this`prompts
      ensures old(chunks) <= chunks && errorCount >= old(errorCount)
      ensures r.Raised? <==> LayerFate(world, Settled(), layer, end - start, old(errorCount)).Some?
      ensures r.Raised? ==> LayerFate(world, Settled(), layer, end - start, old(errorCount)) == Some(r.reason)
      ensures r.Ok? ==> |labels| == end && old(labels) <= labels
      ensures r.Ok? ==> 1 <= r.value < Min(maxCluster, end - start) && |chunks| == end + r.value
      ensures r.Ok? ==> r.value == Best(world, layer, Min(maxCluster, end - start))
      ensures r.Ok? ==> errorCount == old(errorCount)
      ensures r.Ok? ==> forall c: nat | c < r.value :: world.summary(layer, c).Some?
      ensures r.Ok? ==> old(prompts) <= prompts && |prompts| == |chunks| - n
      ensures r.Ok? ==>
        Summarized(world, Settled(), layer, start, end, |chunks|, r.value, chunks, labels, n, prompts)
      ensures r.Raised? && r.reason == TooManyErrors ==> errorCount >= maxErrors
      ensures r.Raised? && r.reason == CountMismatch ==> old(errorCount) < errorCount < maxErrors
    {
      hide AllLabelled, AllUsed, LabelAt, Lawful, Best, Members, Failed, Summarized, AnsweredBy, AskedFor,
        InRange;
      var optimal := GetOptimalClusters(layer, end - start);
      if optimal.Raised? {
        return Raised(optimal.reason);
      }
      var k := optimal.value;
      var lbls := AssignLabels(layer, end - start, k);
      if lbls.Raised? {
        return Raised(lbls.reason);
      }
      UsedLabels(world, threshold, layer, lbls.value, k);
      var tasks := CreateTasks(lbls.value, k, start);
      if tasks.Raised? {
        return Raised(tasks.reason);
      }
      TasksInRange(lbls.value, tasks.value, start);
      var aborted, finished := RunTasks(layer, tasks.value);
      AskedForEach(world, layer, tasks.value, finished, old(chunks), old(prompts), prompts);
      if aborted {
        return Raised(TooManyErrors);
      }
      if |chunks| - end != k {
        return Raised(CountMismatch);
      }
      NoneFailed(world, layer, k);
      labels := labels + lbls.value;
      OrderIsLawful(world, layer, k);
      LayerSummarized(world, Settled(), layer, start, tasks.value, lbls.value, old(chunks), chunks, labels, n,
                      old(prompts), prompts);
      r := Ok(k);
    }

    /** One pass of the main loop: summarize the layer `start..end`. */
    method NextLayer(depth: nat, start: nat, end: nat, ghost n: nat) returns (r: Result<nat>, ghost k: nat)
      requires Lawful(world) && start + 2 <= end == |chunks| && |labels| == start && n <= end && |prompts| == end - n
      modifies this`chunks, this`errorCount, this`labels, this`prompts
      ensures old(chunks) <= chunks
      ensures var fate := Fate(world, Settled(), depth, end - start, old(errorCount));
        if r.Raised? then fate == Some(r.reason) else fate == Fate(world, Settled(), depth + 1, r.value, errorCount)
      ensures r.Ok? ==> |labels| == end && |chunks| == end + r.value
      ensures r.Ok? ==> r.value < end - start && (r.value <= 1 || r.value < maxCluster)
      ensures r.Ok? ==> errorCount == old(errorCount) + (if r.value == 0 then 1 else 0)
      ensures r.Raised? && r.reason == TooManyErrors ==> errorCount >= maxErrors
      ensures r.Ok? ==> old(labels) <= labels && old(prompts) <= prompts
      ensures r.Ok? ==> |prompts| == |chunks| - n + (if r.value == 0 then 1 else 0)
      ensures r.Ok? ==> Summarized(world, Settled(), depth, start, end, |chunks|, k, chunks, labels, n, prompts)
    {
      hide Summarized, Tiles, WithinBound, SizeBound, Lawful;
      if end - start == 2 {
        k := 1;
        var aborted := Summarize(depth, 0, [start, start + 1]);
        if aborted {
          return Raised(TooManyErrors), 0;
        }
        labels := labels + [0, 0];
        OrderIsLawful(world, depth, 1);
        assert prompts[end - n] == [old(chunks)[start].text, old(chunks)[start + 1].text];
        PairSummarized(world, Settled(), depth, start, end, old(chunks), chunks, labels, n, old(prompts), prompts);
        r := Ok(|chunks| - end);
      } else {
        r := ClusterLayer(depth, start, end, n);
        k := if r.Ok? then r.value else 0;
      }
    }

    /** What holds at the head of the main loop, when `n` chunks were usable. */
    ghost predicate AtLayer(n: nat, start: nat, end: nat, ks: seq<nat>)
      reads this
    {
      && n <= end && start <= end == |chunks| && |labels| == start
      && Tiles(layers, n, start, end) && WithinBound(maxCluster, n, start, end)
      && MadeOfLayers(world, Settled(), layers, ks, chunks, labels, n, prompts)
    }

    /** `__call__`. A list of at most one chunk is answered with the empty list. `at` are the positions
        of the usable chunks, `start` is where the last layer starts, `ks` are the cluster counts. */
    method Build(raw: seq<RawChunk>)
        returns (r: Result<seq<Chunk>>, ghost at: seq<nat>, ghost start: nat, ghost ks: seq<nat>)
      requires Lawful(world)
      modifies this
      ensures |raw| <= 1 ==> r == Ok([])
      ensures |raw| > 1 ==> UsablePositions(raw, at)
      ensures |raw| > 1 ==>
        var fate := Fate(world, Settled(), 0, |at|, old(errorCount));
        if r.Raised? then fate == Some(r.reason) else fate == None
      ensures r.Ok? && |raw| > 1 ==>
        && r.value == chunks && BeginsWith(raw, at, chunks) && |chunks| <= SizeBound(maxCluster, |at|)
        && Tiles(layers, |at|, start, |chunks|) && |labels| == start && |chunks| - start <= 1
        && MadeOfLayers(world, Settled(), layers, ks, chunks, labels, |at|, prompts)
      ensures r.Ok? ==> old(errorCount) <= errorCount <= old(errorCount) + 1
      ensures r.Ok? && |raw| > 1 && errorCount > old(errorCount) ==> start == |chunks|
      ensures r.Raised? && r.reason == TooManyErrors ==> errorCount >= maxErrors
    {
      hide Tiles, WithinBound, SizeBound, Usables, Lawful, Fate, UsablePositions, BeginsWith, MadeOfLayers, Summarized;
      start, at, ks := 0, [], [];
      if |raw| <= 1 {
        return Ok([]), [], 0, [];
      }
      at := UsablesAt(raw);
      chunks := Usables(raw);
      ghost var n := |at|;
      var lo: nat, hi: nat, depth: nat := 0, |chunks|, 0;
      layers, labels, prompts := [Layer(0, |chunks|)], [], [];
      FirstLayer(maxCluster, |chunks|);
      NoLayersYet(world, Settled(), |chunks|, chunks, labels, prompts);
      while hi - lo > 1
        invariant AtLayer(n, lo, hi, ks) && |ks| == depth && BeginsWith(raw, at, chunks)
        invariant Fate(world, Settled(), 0, n, old(errorCount)) ==
                  Fate(world, Settled(), depth, hi - lo, errorCount)
        invariant old(errorCount) <= errorCount <= old(errorCount) + 1
        invariant errorCount > old(errorCount) ==> lo == hi
        invariant lo < hi ==> |prompts| == hi - n
        decreases hi - lo
      {
        ghost var wasChunks, wasLabels, wasPrompts := chunks, labels, prompts;
        ghost var k: nat;
        var layer;
        layer, k := NextLayer(depth, lo, hi, n);
        if layer.Raised? {
          return Raised(layer.reason), at, lo, ks;
        }
        BoundKept(maxCluster, n, lo, hi, layer.value);
        BeginningStays(raw, at, wasChunks, chunks);
        LayersStay(world, Settled(), layers, ks, wasChunks, wasLabels, n, wasPrompts, chunks, labels, prompts);
        TilesMore(layers, n, lo, hi, |chunks|);
        LayersMore(world, Settled(), layers, ks, lo, hi, |chunks|, k, chunks, labels, n, prompts);
        layers, ks := layers + [Layer(hi, |chunks|)], ks + [k];
        lo, hi, depth := hi, |chunks|, depth + 1;
      }
      BoundAtEnd(maxCluster, n, lo, hi);
      SmallLayersEnd(world, Settled(), depth, hi - lo, errorCount);
      r, start := Ok(chunks), lo;
    }
  }

  lemma NoLayersYet(w: World, x: Settings, n: nat, chunks: seq<Chunk>, labels: seq<nat>, prompts: seq<seq<string>>)
    ensures MadeOfLayers(w, x, [Layer(0, n)], [], chunks, labels, n, prompts)
  {
  }

  lemma LayersMore(w: World, x: Settings, layers: seq<Layer>, ks: seq<nat>, lo: nat, hi: nat, next: nat, k: nat,
                   chunks: seq<Chunk>, labels: seq<nat>, n: nat, prompts: seq<seq<string>>)
    requires MadeOfLayers(w, x, layers, ks, chunks, labels, n, prompts) && Tiles(layers, n, lo, hi)
    requires Summarized(w, x, |ks|, lo, hi, next, k, chunks, labels, n, prompts)
    ensures MadeOfLayers(w, x, layers + [Layer(hi, next)], ks + [k], chunks, labels, n, prompts)
  {
    hide Summarized;
    var more := layers + [Layer(hi, next)];
    assert forall i | 0 <= i < |layers| :: more[i] == layers[i];
  }

  // ----- what the tasks of a layer leave -----

  /** The first `done` tasks all succeeded, and their answers are at the end of the list, in order. */
  ghost predicate AnsweredBy(w: World, layer: nat, k: nat, done: nat, before: seq<Chunk>, after: seq<Chunk>) {
    && done <= |w.order(layer, k)| && before <= after && |after| == |before| + done
    && forall j | 0 <= j < done :: w.summary(layer, w.order(layer, k)[j]) == Some(after[|before| + j])
  }

  /** The first `done` tasks were asked for the texts of their clusters. */
  ghost predicate AskedFor(w: World, layer: nat, tasks: seq<seq<nat>>, done: nat, chunks: seq<Chunk>,
                           before: seq<seq<string>>, after: seq<seq<string>>)
  {
    var order := w.order(layer, |tasks|);
    && done <= |order| && before <= after && |after| == |before| + done
    && forall j | 0 <= j < done :: order[j] < |tasks| && AsksFor(chunks, tasks[order[j]], after[|before| + j])
  }

  lemma AskedForEach(w: World, layer: nat, tasks: seq<seq<nat>>, done: nat, chunks: seq<Chunk>,
                     before: seq<seq<string>>, after: seq<seq<string>>)
    requires AskedFor(w, layer, tasks, done, chunks, before, after)
    ensures before <= after && |after| == |before| + done
  {
  }

  lemma NothingRun(w: World, layer: nat, tasks: seq<seq<nat>>, chunks: seq<Chunk>, prompts: seq<seq<string>>)
    ensures AnsweredBy(w, layer, |tasks|, 0, chunks, chunks)
    ensures AskedFor(w, layer, tasks, 0, chunks, prompts, prompts)
  {
  }

  lemma AnsweredMore(w: World, layer: nat, k: nat, done: nat, first: seq<Chunk>, before: seq<Chunk>, after: seq<Chunk>,
                     all: bool)
    requires done < |w.order(layer, k)| && (all ==> AnsweredBy(w, layer, k, done, first, before))
    requires w.summary(layer, w.order(layer, k)[done]).Some?
    requires after == before + [w.summary(layer, w.order(layer, k)[done]).value]
    ensures all ==> AnsweredBy(w, layer, k, done + 1, first, after)
  {
  }

  lemma AskedMore(w: World, layer: nat, tasks: seq<seq<nat>>, done: nat, first: seq<Chunk>, before: seq<Chunk>,
                  began: seq<seq<string>>, asked: seq<seq<string>>, after: seq<seq<string>>)
    requires AskedFor(w, layer, tasks, done, first, began, asked) && done < |w.order(layer, |tasks|)|
    requires w.order(layer, |tasks|)[done] < |tasks| && first <= before
    requires var members := tasks[w.order(layer, |tasks|)[done]];
      (forall i | 0 <= i < |members| :: members[i] < |first|) && after == asked + [Texts(before, members)]
    ensures AskedFor(w, layer, tasks, done + 1, first, began, after)
  {
  }

  lemma OrderAt(order: seq<nat>, k: nat, i: nat)
    requires IsOrder(order, k) && i < |order|
    ensures order[i] < k
  {
  }

  ghost predicate InRange(tasks: seq<seq<nat>>, n: nat) {
    forall c, i | 0 <= c < |tasks| && 0 <= i < |tasks[c]| :: tasks[c][i] < n
  }

  lemma TaskInRange(tasks: seq<seq<nat>>, n: nat, c: nat)
    requires InRange(tasks, n) && c < |tasks|
    ensures forall i | 0 <= i < |tasks[c]| :: tasks[c][i] < n
  {
  }

  lemma TasksInRange(lbls: seq<nat>, tasks: seq<seq<nat>>, start: nat)
    requires forall c | 0 <= c < |tasks| :: tasks[c] == Members(lbls, c, start)
    ensures InRange(tasks, start + |lbls|)
  {
    forall c, i | 0 <= c < |tasks| && 0 <= i < |tasks[c]| ensures tasks[c][i] < start + |lbls| {
      MembersExact(lbls, c, start);
      assert tasks[c][i] in Members(lbls, c, start);
    }
  }

  /** The members of a cluster are what its task is asked for. */
  lemma MembersAsked(chunks: seq<Chunk>, labels: seq<nat>, lo: nat, lbls: seq<nat>, c: nat, prompt: seq<string>)
    requires lo + |lbls| <= |chunks| && lo + |lbls| == |labels| && labels[lo..] == lbls
    requires AsksFor(chunks, Members(lbls, c, lo), prompt)
    ensures Asked(chunks, labels, lo, lo + |lbls|, c, prompt)
  {
    var at := Members(lbls, c, lo);
    MembersExact(lbls, c, lo);
    hide Members;
    forall p: nat ensures p in at <==> lo <= p < lo + |lbls| && labels[p] == c {
      assert lo <= p < lo + |lbls| ==> lbls[p - lo] == labels[p];
      if lo <= p < lo + |lbls| && lbls[p - lo] == c {
        assert (p - lo) + lo in at;
      }
    }
    assert IsCluster(labels, lo, lo + |lbls|, c, at);
  }

  lemma AsksForStays(before: seq<Chunk>, chunks: seq<Chunk>, at: seq<nat>, prompt: seq<string>)
    requires AsksFor(before, at, prompt) && before <= chunks
    ensures AsksFor(chunks, at, prompt)
  {
  }

  lemma LabelsAreLabels(w: World, threshold: real, layer: nat, k: nat, i: nat, lbl: nat)
    requires LabelAt(w, threshold, layer, k, i) == Some(lbl)
    ensures IsLabel(w, threshold, layer, k, i, lbl)
  {
  }

  lemma LayerSummarized(w: World, x: Settings, layer: nat, start: nat, tasks: seq<seq<nat>>, lbls: seq<nat>,
                        before: seq<Chunk>, chunks: seq<Chunk>, labels: seq<nat>, n: nat,
                        asked: seq<seq<string>>, prompts: seq<seq<string>>)
    requires n <= |before| == start + |lbls| && |lbls| >= 3 && IsOptimal(w, layer, Min(x.maxCluster, |lbls|), |tasks|)
    requires |labels| == start + |lbls| && labels[start..] == lbls && |asked| == |before| - n
    requires forall i: nat | i < |lbls| :: LabelAt(w, x.threshold, layer, |tasks|, i) == Some(lbls[i])
    requires forall c | 0 <= c < |tasks| :: tasks[c] == Members(lbls, c, start)
    requires IsOrder(w.order(layer, |tasks|), |tasks|)
    requires AnsweredBy(w, layer, |tasks|, |tasks|, before, chunks)
    requires AskedFor(w, layer, tasks, |tasks|, before, asked, prompts)
    ensures Summarized(w, x, layer, start, start + |lbls|, |chunks|, |tasks|, chunks, labels, n, prompts)
  {
    hide LabelAt, Members, Asked, AsksFor, AnsweredBy, AskedFor, Labelled, Answers, IsOptimal, IsLabel, IsOrder;
    var hi, k := start + |lbls|, |tasks|;
    OrderSize(w.order(layer, k), k);
    OptimalIsBelow(w, layer, Min(x.maxCluster, |lbls|), k);
    LabelsOfLayer(w, x.threshold, layer, k, lbls);
    AnswersOfLayer(w, layer, k, before, chunks);
    PromptsOfLayer(w, layer, start, tasks, lbls, before, chunks, labels, n, asked, prompts);
    assert labels[start..hi] == lbls && chunks[hi..|chunks|] == chunks[hi..];
  }

  lemma OrderSize(order: seq<nat>, k: nat)
    requires IsOrder(order, k)
    ensures |order| == k
  {
  }

  lemma OptimalIsBelow(w: World, layer: nat, limit: int, k: nat)
    requires IsOptimal(w, layer, limit, k)
    ensures 1 <= k < limit
  {
  }

  lemma LabelsOfLayer(w: World, threshold: real, layer: nat, k: nat, lbls: seq<nat>)
    requires forall i: nat | i < |lbls| :: LabelAt(w, threshold, layer, k, i) == Some(lbls[i])
    ensures Labelled(w, threshold, layer, k, lbls)
  {
    hide LabelAt, IsLabel;
    forall i | 0 <= i < |lbls| ensures IsLabel(w, threshold, layer, k, i, lbls[i]) {
      LabelsAreLabels(w, threshold, layer, k, i, lbls[i]);
    }
  }

  lemma AnswersOfLayer(w: World, layer: nat, k: nat, before: seq<Chunk>, chunks: seq<Chunk>)
    requires AnsweredBy(w, layer, k, k, before, chunks)
    ensures |chunks| == |before| + k && before <= chunks && Answers(w, layer, k, chunks[|before|..])
  {
  }

  lemma PromptsOfLayer(w: World, layer: nat, start: nat, tasks: seq<seq<nat>>, lbls: seq<nat>,
                       before: seq<Chunk>, chunks: seq<Chunk>, labels: seq<nat>, n: nat,
                       asked: seq<seq<string>>, prompts: seq<seq<string>>)
    requires n <= |before| == start + |lbls| == |labels| && labels[start..] == lbls && before <= chunks
    requires |asked| == |before| - n
    requires forall c | 0 <= c < |tasks| :: tasks[c] == Members(lbls, c, start)
    requires IsOrder(w.order(layer, |tasks|), |tasks|)
    requires AskedFor(w, layer, tasks, |tasks|, before, asked, prompts)
    ensures |prompts| == |asked| + |tasks|
    ensures forall j: nat | j < |tasks| ::
      Asked(chunks, labels, start, start + |lbls|, w.order(layer, |tasks|)[j], prompts[start + |lbls| - n + j])
  {
    hide Members, Asked, AsksFor;
    var order := w.order(layer, |tasks|);
    forall j: nat | j < |tasks|
      ensures Asked(chunks, labels, start, start + |lbls|, order[j], prompts[start + |lbls| - n + j])
    {
      AsksForStays(before, chunks, tasks[order[j]], prompts[|asked| + j]);
      MembersAsked(chunks, labels, start, lbls, order[j], prompts[|asked| + j]);
    }
  }

  lemma PairAsked(chunks: seq<Chunk>, labels: seq<nat>, start: nat, prompt: seq<string>)
    requires start + 2 == |labels| <= |chunks| && labels[start] == labels[start + 1] == 0
    requires prompt == [chunks[start].text, chunks[start + 1].text]
    ensures Asked(chunks, labels, start, start + 2, 0, prompt)
  {
    var at := [start, start + 1];
    assert IsCluster(labels, start, start + 2, 0, at);
    assert AsksFor(chunks, at, prompt);
  }

  lemma PairSummarized(w: World, x: Settings, layer: nat, start: nat, end: nat, before: seq<Chunk>, chunks: seq<Chunk>,
                       labels: seq<nat>, n: nat, asked: seq<seq<string>>, prompts: seq<seq<string>>)
    requires n <= end == start + 2 == |before| == |labels| && labels[start..] == [0, 0] && |asked| == end - n
    requires IsOrder(w.order(layer, 1), 1)
    requires prompts == asked + [[before[start].text, before[start + 1].text]]
    requires if w.summary(layer, 0).Some? then chunks == before + [w.summary(layer, 0).value] else chunks == before
    ensures Summarized(w, x, layer, start, end, |chunks|, 1, chunks, labels, n, prompts)
  {
    hide Asked;
    assert labels[start] == labels[start..][0] && labels[start + 1] == labels[start..][1];
    PairAsked(chunks, labels, start, prompts[end - n]);
    assert w.order(layer, 1)[0] == 0;
    assert labels[start..end] == [0, 0] && Labelled(w, x.threshold, layer, 1, [0, 0]);
    assert Answers(w, layer, 1, chunks[end..|chunks|]);
  }

  lemma OrderIsLawful(w: World, layer: nat, k: nat)
    requires Lawful(w)
    ensures IsOrder(w.order(layer, k), k) && |w.order(layer, k)| == k
  {
  }

  /** How many of the tasks that `ran` failed. */
  ghost function FailedAmong(w: World, layer: nat, ran: seq<nat>): (n: nat)
    ensures ran == [] ==> n == 0
  {
    if ran == [] then 0
    else FailedAmong(w, layer, ran[..|ran| - 1]) + if w.summary(layer, ran[|ran| - 1]).None? then 1 else 0
  }

  lemma FailedStep(w: World, layer: nat, order: seq<nat>, n: nat)
    requires n < |order|
    ensures FailedAmong(w, layer, order[..n + 1]) ==
            FailedAmong(w, layer, order[..n]) + if w.summary(layer, order[n]).None? then 1 else 0
  {
    assert order[..n + 1][..n] == order[..n];
  }

  ghost function Failing(w: World, layer: nat, ran: seq<nat>): set<nat> {
    set c | c in ran && w.summary(layer, c).None?
  }

  lemma FailingStep(w: World, layer: nat, ran: seq<nat>, c: nat)
    requires c !in ran
    ensures |Failing(w, layer, ran + [c])| == |Failing(w, layer, ran)| + if w.summary(layer, c).None? then 1 else 0
  {
    var before, after := Failing(w, layer, ran), Failing(w, layer, ran + [c]);
    if w.summary(layer, c).None? {
      assert after == before + {c} && c !in before;
    } else {
      assert after == before;
    }
  }

  /** A task order counts each failed cluster once. */
  lemma {:induction false} FailedCounts(w: World, layer: nat, k: nat, order: seq<nat>, n: nat)
    requires IsOrder(order, k) && n <= k
    ensures FailedAmong(w, layer, order[..n]) == |Failing(w, layer, order[..n])|
  {
    if n == 0 {
      assert Failing(w, layer, order[..0]) == {};
    } else {
      FailedCounts(w, layer, k, order, n - 1);
      FailedStep(w, layer, order, n - 1);
      var c := order[n - 1];
      assert order[..n] == order[..n - 1] + [c] && c !in order[..n - 1];
      hide IsOrder, FailedAmong;
      FailingStep(w, layer, order[..n - 1], c);
    }
  }

  lemma FailedBound(w: World, layer: nat, k: nat, order: seq<nat>, n: nat)
    requires IsOrder(order, k) && n <= k
    ensures FailedAmong(w, layer, order[..n]) <= |Failed(w, layer, k)|
    ensures n == k ==> FailedAmong(w, layer, order[..n]) == |Failed(w, layer, k)|
    ensures |Failed(w, layer, k)| == 0 <==> Failed(w, layer, k) == {}
  {
    FailedCounts(w, layer, k, order, n);
    forall c | c in order[..n] ensures c < k {
      var i :| 0 <= i < n && order[..n][i] == c;
      assert order[i] == c;
    }
    SubsetSize(Failing(w, layer, order[..n]), Failed(w, layer, k));
    if n == k {
      assert order[..n] == order;
      OrderCovers(order, k);
      assert Failing(w, layer, order[..n]) == Failed(w, layer, k);
    }
  }

  lemma NoneFailed(w: World, layer: nat, k: nat)
    requires |Failed(w, layer, k)| == 0
    ensures Failed(w, layer, k) == {} && forall c: nat | c < k :: w.summary(layer, c).Some?
  {
    forall c: nat | c < k ensures w.summary(layer, c).Some? {
      assert c !in Failed(w, layer, k);
    }
  }

  lemma SmallLayersEnd(w: World, x: Settings, layer: nat, size: nat, errors: nat)
    requires size <= 1
    ensures Fate(w, x, layer, size, errors) == None
  {
  }

  /** A cluster is used exactly when its number is among the labels. */
  lemma UsedLabels(w: World, threshold: real, layer: nat, lbls: seq<nat>, k: nat)
    requires forall i: nat | i < |lbls| :: LabelAt(w, threshold, layer, k, i) == Some(lbls[i])
    ensures AllUsed(w, threshold, layer, |lbls|, k) <==> forall c: nat | c < k :: c in lbls
  {
    forall c: nat | c < k ensures UsedBy(w, threshold, layer, |lbls|, k, c) <==> c in lbls {
      if UsedBy(w, threshold, layer, |lbls|, k, c) {
        var i: nat :| i < |lbls| && LabelAt(w, threshold, layer, k, i) == Some(c);
        assert lbls[i] == c;
      }
    }
  }

  lemma FirstLayer(maxCluster: int, n: nat)
    ensures Tiles([Layer(0, n)], n, 0, n) && WithinBound(maxCluster, n, 0, n)
  {
  }

  lemma TilesMore(layers: seq<Layer>, n: nat, start: nat, end: nat, next: nat)
    requires Tiles(layers, n, start, end) && end <= next && next - end < end - start
    ensures Tiles(layers + [Layer(end, next)], n, end, next)
  {
    var more := layers + [Layer(end, next)];
    assert forall i | 0 <= i < |layers| :: more[i] == layers[i];
  }

  /** A task order mentions every cluster. */
  lemma OrderCovers(order: seq<nat>, k: nat)
    requires IsOrder(order, k)
    ensures forall c: nat | c < k :: c in order
  {
    var seen := set i | 0 <= i < k :: order[i];
    DistinctCount(order);
    BelowCount(k);
    forall c: nat | c < k ensures c in order {
      if c !in order {
        assert seen <= Below(k) - {c};
        SubsetSize(seen, Below(k) - {c});
      }
    }
  }

  lemma {:induction false} DistinctCount(order: seq<nat>)
    requires forall i, j | 0 <= i < j < |order| :: order[i] != order[j]
    ensures |set i | 0 <= i < |order| :: order[i]| == |order|
  {
    var seen := set i | 0 <= i < |order| :: order[i];
    if order == [] {
      assert seen == {};
    } else {
      var init := order[..|order| - 1];
      DistinctCount(init);
      assert seen == (set i | 0 <= i < |init| :: init[i]) + {order[|order| - 1]};
    }
  }

  function Below(k: nat): (r: set<nat>)
    ensures forall c: nat :: c in r <==> c < k
  {
    if k == 0 then {} else Below(k - 1) + {k - 1}
  }

  lemma {:induction false} BelowCount(k: nat)
    ensures |Below(k)| == k
  {
    if k > 0 {
      BelowCount(k - 1);
    }
  }

}

/** A message template, rendered piece by piece (`Message._stream`) and at once
    (`get_value_with_variable`). Finding the variable references in the text is the work of a
    regular expression, and reading variables that of the variable store; both are foreign. */
module MessageStream {
  import opened Wrappers

  /** One match of the reference pattern: the part of the text it covers, and the variable. */
  datatype Match = Match(lo: nat, hi: nat, key: string)

  /** What the store holds under a variable. `Encoded` is a value with its JSON text; a value that
      has none falls back to its plain text when streamed. */
  datatype Value =
    | Nothing
    | Text(s: string)
    | Chunks(parts: seq<string>)       // a stream read synchronously
    | AsyncChunks(parts: seq<string>)  // a stream that can only be read asynchronously
    | Awaitable(s: string)
    | Encoded(json: string)
    | Unencodable(plain: string)

  type Store = map<string, Value>

  /** Matches come in order and do not overlap. */
  predicate Ordered(text: string, ms: seq<Match>) {
    (forall i | 0 <= i < |ms| :: ms[i].lo <= ms[i].hi <= |text|) &&
    (forall i, j | 0 <= i < j < |ms| :: ms[i].hi <= ms[j].lo)
  }

  function Concat(parts: seq<string>): string {
    if parts == [] then "" else Concat(parts[..|parts| - 1]) + parts[|parts| - 1]
  }

  lemma {:induction false} ConcatSplit(a: seq<string>, b: seq<string>)
    ensures Concat(a + b) == Concat(a) + Concat(b)
    decreases |b|
  {
    if b == [] {
      assert a + b == a;
    } else {
      var init, last := b[..|b| - 1], b[|b| - 1];
      assert a + b == (a + init) + [last];
      ConcatOne(a + init, last);
      ConcatSplit(a, init);
    }
  }

  lemma ConcatOne(a: seq<string>, s: string)
    ensures Concat(a + [s]) == Concat(a) + s
  {
    assert (a + [s])[..|a|] == a;
  }

  /** The text a value stands for. */
  function TextOf(v: Value): string {
    match v
    case Nothing => ""
    case Text(s) => s
    case Chunks(parts) => Concat(parts)
    case AsyncChunks(parts) => Concat(parts)
    case Awaitable(s) => s
    case Encoded(json) => json
    case Unencodable(plain) => plain
  }

  /** Values that the batch form can turn into text. */
  predicate Batchable(v: Value) {
    !v.AsyncChunks? && !v.Awaitable? && !v.Unencodable?
  }

  /** Where the text after the first `n` matches begins. */
  function EndOf(ms: seq<Match>, n: nat): nat
    requires n <= |ms|
  {
    if n == 0 then 0 else ms[n - 1].hi
  }

  ghost predicate AllFound(ms: seq<Match>, store: Store) {
    forall i | 0 <= i < |ms| :: ms[i].key in store
  }

  /** The text with its first `n` references replaced by what their variables stand for, up to the
      end of the last of them. */
  function Substituted(text: string, ms: seq<Match>, store: Store, n: nat): string
    requires n <= |ms| && Ordered(text, ms) && AllFound(ms, store)
  {
    if n == 0 then ""
    else Substituted(text, ms, store, n - 1) + text[EndOf(ms, n - 1)..ms[n - 1].lo] + TextOf(store[ms[n - 1].key])
  }

  /** The rendered template. */
  function Rendered(text: string, ms: seq<Match>, store: Store): string
    requires Ordered(text, ms) && AllFound(ms, store)
  {
    Substituted(text, ms, store, |ms|) + text[EndOf(ms, |ms|)..]
  }

  lemma EndsInside(text: string, ms: seq<Match>, n: nat)
    requires n <= |ms| && Ordered(text, ms)
    ensures EndOf(ms, n) <= |text| && (n < |ms| ==> EndOf(ms, n) <= ms[n].lo)
  {
  }

  lemma ConcatPrefix(a: seq<string>, b: seq<string>)
    requires a <= b
    ensures Concat(a) <= Concat(b)
  {
    assert b == a + b[|a|..];
    ConcatSplit(a, b[|a|..]);
  }

  lemma SubstitutedMore(text: string, ms: seq<Match>, store: Store, n: nat)
    requires n < |ms| && Ordered(text, ms) && AllFound(ms, store)
    ensures EndOf(ms, n) <= ms[n].lo <= |text| && ms[n].key in store
    ensures Substituted(text, ms, store, n + 1) ==
            Substituted(text, ms, store, n) + text[EndOf(ms, n)..ms[n].lo] + TextOf(store[ms[n].key])
  {
    EndsInside(text, ms, n);
  }

  /** What has been substituted is a prefix of the rendered template. */
  lemma {:induction false} SubstitutedIsPrefix(text: string, ms: seq<Match>, store: Store, n: nat)
    requires n <= |ms| && Ordered(text, ms) && AllFound(ms, store)
    ensures Substituted(text, ms, store, n) <= Rendered(text, ms, store)
    decreases |ms| - n
  {
    hide Substituted, TextOf;
    if n < |ms| {
      SubstitutedMore(text, ms, store, n);
      SubstitutedIsPrefix(text, ms, store, n + 1);
    }
  }

  /** So is what has been streamed of the next match: the text before it and a part of its value. */
  lemma PartIsPrefix(text: string, ms: seq<Match>, store: Store, n: nat, part: string)
    requires n < |ms| && Ordered(text, ms) && AllFound(ms, store)
    requires ms[n].key in store && part <= TextOf(store[ms[n].key]) && EndOf(ms, n) <= ms[n].lo <= |text|
    ensures Substituted(text, ms, store, n) + text[EndOf(ms, n)..ms[n].lo] + part <= Rendered(text, ms, store)
  {
    hide Substituted, TextOf;
    SubstitutedMore(text, ms, store, n);
    SubstitutedIsPrefix(text, ms, store, n + 1);
  }

  /** A text without references is rendered as it is, and one more reference replaces just the part
      of the text that it covers. */
  lemma RenderedOneMore(text: string, ms: seq<Match>, m: Match, store: Store)
    requires Ordered(text, ms + [m]) && AllFound(ms + [m], store)
    ensures Ordered(text, []) && Rendered(text, [], store) == text
    ensures m.lo <= m.hi <= |text| && m.key in store && Ordered(text[..m.lo], ms) && AllFound(ms, store)
    ensures Rendered(text, ms + [m], store) ==
            Rendered(text[..m.lo], ms, store) + TextOf(store[m.key]) + text[m.hi..]
  {
    var all := ms + [m];
    assert all[|ms|] == m && forall i | 0 <= i < |ms| :: all[i] == ms[i];
    assert Ordered(text[..m.lo], ms);
    EndsInside(text, all, |ms|);
    SubstitutedMore(text, all, store, |ms|);
    SubstitutedLocal(text, text[..m.lo], all, ms, store, |ms|);
    hide TextOf, Substituted, Ordered;
    assert text[..m.lo][EndOf(ms, |ms|)..] == text[EndOf(ms, |ms|)..m.lo];
    assert Rendered(text, [], store) == "" + text[0..];
  }

  /** Only the text before the next reference matters. */
  lemma {:induction false} SubstitutedLocal(text: string, part: string, all: seq<Match>, ms: seq<Match>, store: Store,
                                            n: nat)
    requires Ordered(text, all) && AllFound(all, store) && Ordered(part, ms) && AllFound(ms, store)
    requires ms <= all && part <= text && n <= |ms|
    ensures Substituted(text, all, store, n) == Substituted(part, ms, store, n)
  {
    if n > 0 {
      SubstitutedLocal(text, part, all, ms, store, n - 1);
      EndsInside(part, ms, n - 1);
      assert text[EndOf(ms, n - 1)..ms[n - 1].lo] == part[EndOf(ms, n - 1)..ms[n - 1].lo];
    }
  }

  ghost predicate Stopped(stops: nat -> bool) {
    exists k :: stops(k)
  }

  /** Read a value piece by piece, asking before each piece of a stream whether to stop. */
  method StreamValue(v: Value, stops: nat -> bool, poll: nat) returns (parts: seq<string>, stopped: bool, next: nat)
    ensures stopped ==> Stopped(stops)
    ensures v.Nothing? ==> parts == [""]
    ensures v.Text? || v.Awaitable? ==> parts == [v.s]
    ensures v.Encoded? ==> parts == [v.json]
    ensures v.Unencodable? ==> parts == [v.plain]
    ensures v.Chunks? || v.AsyncChunks? ==> parts <= v.parts && (!stopped ==> parts == v.parts)
    ensures stopped ==> v.Chunks? || v.AsyncChunks?
    ensures Concat(parts) <= TextOf(v) && (!stopped ==> Concat(parts) == TextOf(v))
  {
    next, stopped := poll, false;
    if !v.Chunks? && !v.AsyncChunks? {
      ConcatOne([], TextOf(v));
      assert [] + [TextOf(v)] == [TextOf(v)];
      return [TextOf(v)], false, next;
    }
    var i := 0;
    while i < |v.parts|
      invariant i <= |v.parts|
    {
      if stops(next) {
        ConcatPrefix(v.parts[..i], v.parts);
        return v.parts[..i], true, next;
      }
      next, i := next + 1, i + 1;
    }
    parts := v.parts;
  }

  /** What is known between two matches: where the rest of the text begins, what has been streamed,
      and that the cache repeats the store. */
  ghost predicate Streaming(text: string, ms: seq<Match>, store: Store, n: nat, s: nat, all: string,
                            cache: map<string, string>)
    requires n <= |ms| && Ordered(text, ms)
  {
    && s == EndOf(ms, n) <= |text|
    && (forall j | 0 <= j < n :: ms[j].key in store)
    && (forall k | k in cache :: k in store && cache[k] == TextOf(store[k]))
    && (AllFound(ms, store) ==> all == Substituted(text, ms, store, n))
  }

  /** The text before match `n` and the value of its variable have been streamed as well. */
  lemma StreamingMore(text: string, ms: seq<Match>, store: Store, n: nat, s: nat, all: string,
                      cache: map<string, string>, more: map<string, string>)
    requires n < |ms| && Ordered(text, ms) && Streaming(text, ms, store, n, s, all, cache)
    requires ms[n].key in store && s <= ms[n].lo <= |text|
    requires more == cache || more == cache[ms[n].key := TextOf(store[ms[n].key])]
    ensures Streaming(text, ms, store, n + 1, ms[n].hi, all + text[s..ms[n].lo] + TextOf(store[ms[n].key]), more)
  {
    hide Substituted, TextOf;
    EndsInside(text, ms, n + 1);
    if AllFound(ms, store) {
      SubstitutedMore(text, ms, store, n);
    }
  }

  /** `_stream`: the pieces it yields and the content it stores at the end. `None` when a variable
      cannot be read, or when it is told to stop; `stops` answers its polls in order. Whatever
      happens, what was yielded is the beginning of the rendered template. */
  method StreamPieces(text: string, ms: seq<Match>, store: Store, stops: nat -> bool)
    returns (pieces: seq<string>, content: Option<string>)
    requires Ordered(text, ms)
    ensures content.Some? ==> AllFound(ms, store)
    ensures content.Some? ==> content.value == Rendered(text, ms, store) && Concat(pieces) == content.value
    ensures content.None? ==> !AllFound(ms, store) || Stopped(stops)
    ensures AllFound(ms, store) ==> Concat(pieces) <= Rendered(text, ms, store)
  {
    hide Substituted, TextOf, Concat, Ordered, Rendered;
    var s: nat, all, cache: map<string, string>, poll: nat := 0, "", map[], 0;
    pieces := [];
    var i := 0;
    StreamingStart(text, ms, store);
    while i < |ms|
      invariant i <= |ms| && Streaming(text, ms, store, i, s, all, cache) && Concat(pieces) == all
    {
      EndsInside(text, ms, i);
      var m := ms[i];
      MatchInside(text, ms, i);
      if stops(poll) {
        if AllFound(ms, store) {
          SubstitutedIsPrefix(text, ms, store, i);
        }
        return pieces, None;
      }
      poll := poll + 1;
      ConcatOne(pieces, text[s..m.lo]);
      var more := cache;
      if m.key in cache {
        ConcatOne(pieces + [text[s..m.lo]], cache[m.key]);
        pieces := pieces + [text[s..m.lo]] + [cache[m.key]];
      } else {
        if m.key !in store {
          return pieces + [text[s..m.lo]], None;
        }
        var parts, stopped, next := StreamValue(store[m.key], stops, poll);
        ConcatSplit(pieces + [text[s..m.lo]], parts);
        pieces, poll := pieces + [text[s..m.lo]] + parts, next;
        if stopped {
          if AllFound(ms, store) {
            PartIsPrefix(text, ms, store, i, Concat(parts));
          }
          return pieces, None;
        }
        if !store[m.key].Chunks? && !store[m.key].AsyncChunks? {
          more := cache[m.key := TextOf(store[m.key])];
        }
      }
      StreamingMore(text, ms, store, i, s, all, cache, more);
      all := all + text[s..m.lo] + TextOf(store[m.key]);
      s, cache, i := m.hi, more, i + 1;
    }
    if s < |text| {
      if stops(poll) {
        if AllFound(ms, store) {
          SubstitutedIsPrefix(text, ms, store, i);
        }
        return pieces, None;
      }
      ConcatOne(pieces, text[s..]);
      pieces, all := pieces + [text[s..]], all + text[s..];
    }
    StreamingEnd(text, ms, store, s, cache);
    content := Some(all);
  }

  lemma StreamingStart(text: string, ms: seq<Match>, store: Store)
    requires Ordered(text, ms)
    ensures Streaming(text, ms, store, 0, 0, "", map[]) && Concat([]) == ""
  {
  }

  lemma MatchInside(text: string, ms: seq<Match>, n: nat)
    requires n < |ms| && Ordered(text, ms)
    ensures ms[n].lo <= ms[n].hi <= |text|
  {
  }

  lemma StreamingEnd(text: string, ms: seq<Match>, store: Store, s: nat, cache: map<string, string>)
    requires Ordered(text, ms) && s == EndOf(ms, |ms|) <= |text| && forall j | 0 <= j < |ms| :: ms[j].key in store
    ensures AllFound(ms, store)
    ensures Rendered(text, ms, store) == Substituted(text, ms, store, |ms|) + text[s..]
  {
  }

  /** `get_value_with_variable`. `None` when it raises. */
  method RenderAtOnce(text: string, ms: seq<Match>, store: Store) returns (r: Option<string>)
    requires Ordered(text, ms)
    ensures r.Some? <==> AllFound(ms, store) && forall i | 0 <= i < |ms| :: Batchable(store[ms[i].key])
    ensures r.Some? ==> r.value == Rendered(text, ms, store)
  {
    var parts, last := [], 0;
    var i := 0;
    while i < |ms|
      invariant i <= |ms| && last == EndOf(ms, i) <= |text|
      invariant forall j | 0 <= j < i :: ms[j].key in store && Batchable(store[ms[j].key])
      invariant AllFound(ms, store) ==> Concat(parts) == Substituted(text, ms, store, i)
    {
      EndsInside(text, ms, i);
      var m := ms[i];
      if m.key !in store || !Batchable(store[m.key]) {
        return None;
      }
      ConcatOne(parts, text[last..m.lo]);
      ConcatOne(parts + [text[last..m.lo]], TextOf(store[m.key]));
      parts := parts + [text[last..m.lo]] + [TextOf(store[m.key])];
      last := m.hi;
      i := i + 1;
    }
    ConcatOne(parts, text[last..]);
    r := Some(Concat(parts + [text[last..]]));
  }

  /** Streaming refines the batch form: whenever the batch form succeeds and nothing stops the
      stream, the pieces streamed add up to its result, and so does the stored content. */
  method RenderBothWays(text: string, ms: seq<Match>, store: Store, stops: nat -> bool)
    returns (pieces: seq<string>, content: Option<string>, once: Option<string>)
    requires Ordered(text, ms)
    ensures once.Some? && !Stopped(stops) ==> content == once
    ensures once.Some? ==> Concat(pieces) <= once.value
    ensures once.Some? && content.Some? ==> content == once && Concat(pieces) == once.value
    ensures AllFound(ms, store) && (forall i | 0 <= i < |ms| :: Batchable(store[ms[i].key])) ==> once.Some?
  {
    pieces, content := StreamPieces(text, ms, store, stops);
    once := RenderAtOnce(text, ms, store);
  }
}

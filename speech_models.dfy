/**
 * The `fetchSpeechModels` fetcher: the list of text-to-speech model ids offered
 * in the model dropdown, newest first.
 */
module SpeechModels {
  import opened Wrappers
  import opened JsStrings
  import opened ForgeHost

  /** One entry of the provider's model catalogue. */
  datatype Model = Model(id: string, created: int)

  /** The marker that makes a model id a speech model. */
  const SpeechMarker := "tts"

  /** The context the fetcher attaches to a failed catalogue request. */
  const FetchContext := "While fetching OpenAI speech models"

  /** What a fetcher gives back to the host: the dropdown entries, or an error. */
  datatype FetchResponse = Data(ids: seq<string>) | Error(error: Diagnostic)

  predicate IsSpeechModel(m: Model) {
    Includes(m.id, SpeechMarker)
  }

  /** `models.filter(model => model.id.includes("tts"))`. */
  function FilterSpeechModels(ms: seq<Model>): (r: seq<Model>)
    ensures |r| <= |ms|
  {
    if ms == [] then []
    else (if IsSpeechModel(ms[0]) then [ms[0]] else []) + FilterSpeechModels(ms[1..])
  }

  /** The filter keeps every speech model of the catalogue as often as it occurs there, and nothing else. */
  lemma {:induction false} FilterCountsEach(ms: seq<Model>)
    ensures forall m :: multiset(FilterSpeechModels(ms))[m] == if IsSpeechModel(m) then multiset(ms)[m] else 0
  {
    if ms != [] {
      FilterCountsEach(ms[1..]);
      assert ms == [ms[0]] + ms[1..];
    }
  }

  /** The models of `ms` created at time `t`, in their order in `ms`. */
  function WithCreated(ms: seq<Model>, t: int): seq<Model> {
    if ms == [] then []
    else (if ms[0].created == t then [ms[0]] else []) + WithCreated(ms[1..], t)
  }

  /** Newest first: `created` never increases along `ms`. */
  ghost predicate NonIncreasing(ms: seq<Model>) {
    forall i, j :: 0 <= i < j < |ms| ==> ms[i].created >= ms[j].created
  }

  /**
   * Inserts `m` into `s` before the first model that is not newer than it.
   * `m` precedes everything in `s` in the catalogue, so placing it before
   * models of equal `created` keeps ties in catalogue order.
   */
  function InsertByCreated(m: Model, s: seq<Model>): (r: seq<Model>)
    ensures |r| == |s| + 1
  {
    if s == [] || m.created >= s[0].created then [m] + s
    else [s[0]] + InsertByCreated(m, s[1..])
  }

  /**
   * `sort((a, b) => b.created - a.created)`: a stable sort, newest first
   * (`Array.prototype.sort` is stable, so equal timestamps keep their order).
   */
  function SortByCreatedDesc(ms: seq<Model>): (r: seq<Model>)
    ensures |r| == |ms|
  {
    if ms == [] then [] else InsertByCreated(ms[0], SortByCreatedDesc(ms[1..]))
  }

  /** An insertion step adds exactly the inserted model. */
  lemma {:induction false} InsertAddsOne(m: Model, s: seq<Model>)
    ensures multiset(InsertByCreated(m, s)) == multiset(s) + multiset{m}
  {
    if s != [] && m.created < s[0].created {
      InsertAddsOne(m, s[1..]);
      assert s == [s[0]] + s[1..];
    }
  }

  /** Sorting neither loses nor duplicates a model. */
  lemma {:induction false} SortIsPermutation(ms: seq<Model>)
    ensures multiset(SortByCreatedDesc(ms)) == multiset(ms)
  {
    if ms != [] {
      SortIsPermutation(ms[1..]);
      InsertAddsOne(ms[0], SortByCreatedDesc(ms[1..]));
      assert ms == [ms[0]] + ms[1..];
    }
  }

  lemma {:induction false} InsertAddsOnlyM(m: Model, s: seq<Model>, x: Model)
    ensures x in InsertByCreated(m, s) ==> x == m || x in s
  {
    if s != [] && m.created < s[0].created {
      InsertAddsOnlyM(m, s[1..], x);
    }
  }

  lemma {:induction false} InsertKeepsOrder(m: Model, s: seq<Model>)
    requires NonIncreasing(s)
    ensures NonIncreasing(InsertByCreated(m, s))
  {
    if s != [] && m.created < s[0].created {
      var tail := InsertByCreated(m, s[1..]);
      InsertKeepsOrder(m, s[1..]);
      var r := [s[0]] + tail;
      assert r == InsertByCreated(m, s);
      forall i, j | 0 <= i < j < |r|
        ensures r[i].created >= r[j].created
      {
        if i == 0 {
          InsertAddsOnlyM(m, s[1..], tail[j - 1]);
        } else {
          assert r[i] == tail[i - 1] && r[j] == tail[j - 1];
        }
      }
    }
  }

  lemma {:induction false} SortIsNonIncreasing(ms: seq<Model>)
    ensures NonIncreasing(SortByCreatedDesc(ms))
  {
    if ms != [] {
      SortIsNonIncreasing(ms[1..]);
      InsertKeepsOrder(ms[0], SortByCreatedDesc(ms[1..]));
    }
  }

  lemma WithCreatedCons(x: Model, s: seq<Model>, t: int)
    ensures WithCreated([x] + s, t) == (if x.created == t then [x] else []) + WithCreated(s, t)
  {
    assert ([x] + s)[1..] == s;
  }

  lemma {:induction false} InsertIsStable(m: Model, s: seq<Model>, t: int)
    ensures WithCreated(InsertByCreated(m, s), t) == WithCreated([m] + s, t)
  {
    if s != [] && m.created < s[0].created {
      var s0, rest := s[0], s[1..];
      assert s == [s0] + rest;
      InsertIsStable(m, rest, t);
      WithCreatedCons(s0, InsertByCreated(m, rest), t);
      WithCreatedCons(m, rest, t);
      WithCreatedCons(m, s, t);
      WithCreatedCons(s0, rest, t);
      assert s0.created == t ==> m.created != t;
    }
  }

  /** Sorting keeps the models of every timestamp in catalogue order. */
  lemma {:induction false} SortIsStable(ms: seq<Model>, t: int)
    ensures WithCreated(SortByCreatedDesc(ms), t) == WithCreated(ms, t)
  {
    if ms != [] {
      SortIsStable(ms[1..], t);
      InsertIsStable(ms[0], SortByCreatedDesc(ms[1..]), t);
      WithCreatedCons(ms[0], SortByCreatedDesc(ms[1..]), t);
      WithCreatedCons(ms[0], ms[1..], t);
      assert ms == [ms[0]] + ms[1..];
    }
  }

  lemma {:induction false} InWithCreated(x: Model, s: seq<Model>, t: int)
    ensures x in WithCreated(s, t) <==> x in s && x.created == t
  {
    if s != [] {
      InWithCreated(x, s[1..], t);
      WithCreatedCons(s[0], s[1..], t);
      assert s == [s[0]] + s[1..];
    }
  }

  /** The newest timestamp of a non-increasing sequence bounds every timestamp in it. */
  lemma HeadIsNewest(x: Model, s: seq<Model>)
    requires NonIncreasing(s) && x in s
    ensures s[0].created >= x.created
  {
    var k :| 0 <= k < |s| && s[k] == x;
  }

  lemma HeadsHaveSameCreated(a: seq<Model>, b: seq<Model>)
    requires a != [] && b != []
    requires NonIncreasing(a) && NonIncreasing(b)
    requires WithCreated(a, a[0].created) == WithCreated(b, a[0].created)
    requires WithCreated(a, b[0].created) == WithCreated(b, b[0].created)
    ensures a[0].created == b[0].created
  {
    var ta, tb := a[0].created, b[0].created;
    InWithCreated(a[0], a, ta);
    InWithCreated(a[0], b, ta);
    HeadIsNewest(a[0], b);
    InWithCreated(b[0], b, tb);
    InWithCreated(b[0], a, tb);
    HeadIsNewest(b[0], a);
  }

  lemma HeadGroupIsNonEmpty(s: seq<Model>)
    ensures s != [] ==> WithCreated(s, s[0].created) != []
  {
  }

  /**
   * Newest first with ties in catalogue order leaves no freedom: two orderings
   * that are both non-increasing and agree on the order within every timestamp
   * are the same sequence.
   */
  lemma {:induction false} StableOrderIsUnique(a: seq<Model>, b: seq<Model>)
    requires NonIncreasing(a) && NonIncreasing(b)
    requires forall t :: WithCreated(a, t) == WithCreated(b, t)
    ensures a == b
    decreases |a|
  {
    if a == [] || b == [] {
      HeadGroupIsNonEmpty(a);
      HeadGroupIsNonEmpty(b);
    } else {
      var t0 := a[0].created;
      HeadsHaveSameCreated(a, b);
      var a', b' := a[1..], b[1..];
      assert a == [a[0]] + a' && b == [b[0]] + b';
      WithCreatedCons(a[0], a', t0);
      WithCreatedCons(b[0], b', t0);
      assert WithCreated(a, t0) == WithCreated(b, t0);
      assert WithCreated(a, t0)[0] == a[0];
      assert a[0] == b[0];
      forall t
        ensures WithCreated(a', t) == WithCreated(b', t)
      {
        WithCreatedCons(a[0], a', t);
        WithCreatedCons(b[0], b', t);
        var g := if a[0].created == t then [a[0]] else [];
        assert WithCreated(a, t) == WithCreated(b, t);
        assert WithCreated(a', t) == (g + WithCreated(a', t))[|g|..];
        assert WithCreated(b', t) == (g + WithCreated(b', t))[|g|..];
      }
      StableOrderIsUnique(a', b');
    }
  }

  lemma FilterCons(x: Model, s: seq<Model>)
    ensures FilterSpeechModels([x] + s) == (if IsSpeechModel(x) then [x] else []) + FilterSpeechModels(s)
  {
    assert ([x] + s)[1..] == s;
  }

  /** Filtering by id and selecting by timestamp can be done in either order. */
  lemma {:induction false} FilterCommutesWithCreated(ms: seq<Model>, t: int)
    ensures WithCreated(FilterSpeechModels(ms), t) == FilterSpeechModels(WithCreated(ms, t))
  {
    if ms != [] {
      var x, rest := ms[0], ms[1..];
      assert ms == [x] + rest;
      FilterCommutesWithCreated(rest, t);
      FilterCons(x, rest);
      WithCreatedCons(x, rest, t);
      var fr, wr := FilterSpeechModels(rest), WithCreated(rest, t);
      if IsSpeechModel(x) {
        assert FilterSpeechModels(ms) == [x] + fr;
        WithCreatedCons(x, fr, t);
      } else {
        assert FilterSpeechModels(ms) == fr;
      }
      if x.created == t {
        assert WithCreated(ms, t) == [x] + wr;
        FilterCons(x, wr);
      } else {
        assert WithCreated(ms, t) == wr;
      }
    }
  }

  /**
   * `filter`, then `sort`: the speech models of the catalogue, each catalogue
   * entry exactly once, newest first, ties in catalogue order.
   */
  function RankSpeechModels(catalogue: seq<Model>): (r: seq<Model>)
    ensures forall m :: multiset(r)[m] == if IsSpeechModel(m) then multiset(catalogue)[m] else 0
    ensures forall i :: 0 <= i < |r| ==> IsSpeechModel(r[i])
    ensures NonIncreasing(r)
    ensures forall t :: WithCreated(r, t) == FilterSpeechModels(WithCreated(catalogue, t))
  {
    var speech := FilterSpeechModels(catalogue);
    FilterCountsEach(catalogue);
    SortIsPermutation(speech);
    SortIsNonIncreasing(speech);
    assert forall i :: 0 <= i < |SortByCreatedDesc(speech)| ==> IsSpeechModel(SortByCreatedDesc(speech)[i]) by {
      forall i | 0 <= i < |SortByCreatedDesc(speech)|
        ensures IsSpeechModel(SortByCreatedDesc(speech)[i])
      {
        var m := SortByCreatedDesc(speech)[i];
        assert m in multiset(SortByCreatedDesc(speech));
      }
    }
    assert forall t :: WithCreated(SortByCreatedDesc(speech), t) == FilterSpeechModels(WithCreated(catalogue, t)) by {
      forall t
        ensures WithCreated(SortByCreatedDesc(speech), t) == FilterSpeechModels(WithCreated(catalogue, t))
      {
        SortIsStable(speech, t);
        FilterCommutesWithCreated(catalogue, t);
      }
    }
    SortByCreatedDesc(speech)
  }

  /**
   * The contract of `RankSpeechModels` leaves no choice: any newest-first
   * ordering that keeps, per timestamp, the catalogue order of the speech
   * models is its result.
   */
  lemma RankIsTheOnlyOrder(catalogue: seq<Model>, r: seq<Model>)
    requires NonIncreasing(r)
    requires forall t :: WithCreated(r, t) == FilterSpeechModels(WithCreated(catalogue, t))
    ensures r == RankSpeechModels(catalogue)
  {
    StableOrderIsUnique(r, RankSpeechModels(catalogue));
  }

  /**
   * How many catalogue entries carry the speech marker, counted on the
   * catalogue itself rather than read off the filter, so that the length of
   * the fetcher's answer is stated against a definition independent of it.
   */
  function CountSpeechModels(ms: seq<Model>): nat {
    if ms == [] then 0 else (if IsSpeechModel(ms[0]) then 1 else 0) + CountSpeechModels(ms[1..])
  }

  lemma {:induction false} FilterLength(ms: seq<Model>)
    ensures |FilterSpeechModels(ms)| == CountSpeechModels(ms)
  {
    if ms != [] {
      FilterLength(ms[1..]);
    }
  }

  /**
   * The fetcher. `apiKey` is `credentials?.apiKey`; `catalogue` is what
   * `models.list()` gave back or threw, consulted only when a key is present.
   */
  function FetchSpeechModels(apiKey: Option<string>, catalogue: Result<seq<Model>, Raised>): (r: FetchResponse)
    ensures !IsTruthy(apiKey) ==> r == Data([])
    ensures IsTruthy(apiKey) && catalogue.Failure? ==> r == Error(Diagnostic(FetchContext, catalogue.error))
    ensures IsTruthy(apiKey) && catalogue.Success? ==>
              var ranked := RankSpeechModels(catalogue.value);
              r.Data? && |r.ids| == |ranked| == CountSpeechModels(catalogue.value) &&
              forall i :: 0 <= i < |r.ids| ==> r.ids[i] == ranked[i].id
    ensures r.Data? ==> forall i :: 0 <= i < |r.ids| ==> Includes(r.ids[i], SpeechMarker)
  {
    if !IsTruthy(apiKey) then Data([])
    else match catalogue
      case Failure(err) => Error(ParseUnknownError(err, FetchContext))
      case Success(models) =>
        var ranked := RankSpeechModels(models);
        SortLengthIsCount(models);
        Data(seq(|ranked|, i requires 0 <= i < |ranked| => ranked[i].id))
  }

  lemma SortLengthIsCount(ms: seq<Model>)
    ensures |RankSpeechModels(ms)| == CountSpeechModels(ms)
  {
    var speech := FilterSpeechModels(ms);
    FilterLength(ms);
    SortIsPermutation(speech);
    assert RankSpeechModels(ms) == SortByCreatedDesc(speech);
    assert |SortByCreatedDesc(speech)| == |multiset(SortByCreatedDesc(speech))| == |multiset(speech)| == |speech|;
  }

  lemma GptIsNotSpeechModel()
    ensures !IsSpeechModel(Model("gpt-4", 50))
  {
    assert !Includes("-4", SpeechMarker) by {
      assert "-4"[1..] == "4" && "4"[1..] == "";
    }
    assert !Includes("t-4", SpeechMarker) by {
      assert "t-4"[..3][1] != SpeechMarker[1];
      assert "t-4"[1..] == "-4";
    }
    assert !Includes("pt-4", SpeechMarker) by {
      assert "pt-4"[..3][0] != SpeechMarker[0];
      assert "pt-4"[1..] == "t-4";
    }
    assert "gpt-4"[..3][0] != SpeechMarker[0];
    assert "gpt-4"[1..] == "pt-4";
  }

  lemma FilterExample()
    ensures FilterSpeechModels([Model("tts-1", 100), Model("gpt-4", 50), Model("tts-1-hd", 200)])
            == [Model("tts-1", 100), Model("tts-1-hd", 200)]
  {
    var catalogue := [Model("tts-1", 100), Model("gpt-4", 50), Model("tts-1-hd", 200)];
    assert IsPrefix(SpeechMarker, "tts-1") && IsPrefix(SpeechMarker, "tts-1-hd");
    GptIsNotSpeechModel();
    assert catalogue[1..] == [Model("gpt-4", 50), Model("tts-1-hd", 200)];
    assert catalogue[1..][1..] == [Model("tts-1-hd", 200)];
  }

  lemma SortExample()
    ensures SortByCreatedDesc([Model("tts-1", 100), Model("tts-1-hd", 200)])
            == [Model("tts-1-hd", 200), Model("tts-1", 100)]
  {
    var speech := [Model("tts-1", 100), Model("tts-1-hd", 200)];
    assert speech[1..] == [Model("tts-1-hd", 200)];
    assert SortByCreatedDesc(speech[1..]) == [Model("tts-1-hd", 200)];
    assert InsertByCreated(Model("tts-1", 100), []) == [Model("tts-1", 100)];
  }

  lemma RankExample()
    ensures RankSpeechModels([Model("tts-1", 100), Model("gpt-4", 50), Model("tts-1-hd", 200)])
            == [Model("tts-1-hd", 200), Model("tts-1", 100)]
  {
    FilterExample();
    SortExample();
  }

  /** A catalogue with timestamps 100, 50 and 200, two of them speech models. */
  lemma FetchKeepsSpeechModelsNewestFirst()
    ensures FetchSpeechModels(Some("key"), Success([Model("tts-1", 100), Model("gpt-4", 50), Model("tts-1-hd", 200)]))
            == Data(["tts-1-hd", "tts-1"])
  {
    var catalogue := [Model("tts-1", 100), Model("gpt-4", 50), Model("tts-1-hd", 200)];
    var ranked := [Model("tts-1-hd", 200), Model("tts-1", 100)];
    RankExample();
    var r := FetchSpeechModels(Some("key"), Success(catalogue));
    assert r.Data? && |r.ids| == |ranked|;
    assert r.ids[0] == ranked[0].id && r.ids[1] == ranked[1].id;
    assert r.ids == ["tts-1-hd", "tts-1"];
  }
}

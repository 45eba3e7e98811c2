/** The AI-model catalogue and the order in which models are tried. The
    `'speed'` and `'quality'` strategies sort the shared catalogue array in
    place with a stable sort by a three-valued rank and return the ids in
    the new order; the other strategies return fixed lists. The response
    clean-up keeps the text from the first `{` to the last `}`. */
module ModelStrategy {
  import opened Types
  import opened JsText

  datatype Speed = Rapido | Medio | Lento
  datatype Quality = Basica | Boa | Excelente

  /** The eight models of the catalogue. */
  datatype ModelName =
    | GeminiFlash | GeminiPro | DeepSeekR1 | DeepSeekBase
    | DeepSeekChimera | Llama31 | LlamaNemotron | ShisaV2

  /** A catalogue entry. Its id, display name and description are functions
      of its `ModelName`. */
  datatype AIModel = AIModel(model: ModelName, speed: Speed, quality: Quality)

  /** The id sent to the API. */
  function ModelId(n: ModelName): string {
    match n
    case GeminiFlash => "google/gemini-2.0-flash-exp:free"
    case GeminiPro => "google/gemini-2.5-pro-exp-03-25:free"
    case DeepSeekR1 => "deepseek/deepseek-r1:free"
    case DeepSeekBase => "deepseek/deepseek-v3-base:free"
    case DeepSeekChimera => "tngtech/deepseek-r1t-chimera:free"
    case Llama31 => "meta-llama/llama-3.1-8b-instruct:free"
    case LlamaNemotron => "meta-llama/llama-3.3-nemotron-super-49b-v1:free"
    case ShisaV2 => "shisa-ai/shisa-v2-llama3.3-70b:free"
  }

  function DisplayName(n: ModelName): string {
    match n
    case GeminiFlash => "Gemini Flash"
    case GeminiPro => "Gemini Pro"
    case DeepSeekR1 => "DeepSeek R1"
    case DeepSeekBase => "DeepSeek Base"
    case DeepSeekChimera => "DeepSeek Chimera"
    case Llama31 => "Llama 3.1 (8B)"
    case LlamaNemotron => "Llama 3.3 Nemotron"
    case ShisaV2 => "Shisa V2 (70B)"
  }

  function Description(n: ModelName): string {
    match n
    case GeminiFlash => "Rápido e eficiente, boas respostas na maioria dos casos."
    case GeminiPro => "Excelente qualidade, bom equilíbrio entre velocidade e precisão."
    case DeepSeekR1 => "Mais preciso para tarefas complexas e estruturadas."
    case DeepSeekBase => "Bom desempenho geral para quizzes de dificuldade média."
    case DeepSeekChimera => "Excelente para formatar corretamente o JSON e conteúdo detalhado."
    case Llama31 => "Mais rápido, mas com respostas mais simples."
    case LlamaNemotron => "Grande modelo de linguagem com excelente qualidade de conteúdo."
    case ShisaV2 => "Modelo grande com alta precisão e raciocínio avançado."
  }

  /** The catalogue in its initial order. */
  function AvailableModels(): seq<AIModel> {
    [ AIModel(GeminiFlash, Rapido, Boa),
      AIModel(GeminiPro, Medio, Excelente),
      AIModel(DeepSeekR1, Medio, Excelente),
      AIModel(DeepSeekBase, Rapido, Boa),
      AIModel(DeepSeekChimera, Lento, Excelente),
      AIModel(Llama31, Rapido, Basica),
      AIModel(LlamaNemotron, Lento, Excelente),
      AIModel(ShisaV2, Lento, Excelente) ]
  }

  function ReliableJsonOrder(): seq<ModelName> {
    [DeepSeekChimera, DeepSeekR1, GeminiPro, DeepSeekBase, ShisaV2, LlamaNemotron, GeminiFlash, Llama31]
  }

  function BalancedOrder(): seq<ModelName> {
    [DeepSeekBase, GeminiFlash, DeepSeekR1, GeminiPro, DeepSeekChimera, Llama31, LlamaNemotron, ShisaV2]
  }

  function Names(s: seq<AIModel>): (ns: seq<ModelName>)
    ensures |ns| == |s|
    ensures forall i :: 0 <= i < |s| ==> ns[i] == s[i].model
  {
    if s == [] then [] else [s[0].model] + Names(s[1..])
  }

  function IdsOf(ns: seq<ModelName>): (ids: seq<string>)
    ensures |ids| == |ns|
    ensures forall i :: 0 <= i < |ns| ==> ids[i] == ModelId(ns[i])
  {
    if ns == [] then [] else [ModelId(ns[0])] + IdsOf(ns[1..])
  }

  /** `.map(model => model.id)`. */
  function Ids(s: seq<AIModel>): seq<string> {
    IdsOf(Names(s))
  }

  /** How many times `n` occurs in `ns`. */
  function Occurrences(ns: seq<ModelName>, n: ModelName): nat {
    if ns == [] then 0 else (if ns[0] == n then 1 else 0) + Occurrences(ns[1..], n)
  }

  /** Every one of the eight models occurs exactly once. */
  predicate EachModelOnce(ns: seq<ModelName>) {
    forall n: ModelName :: Occurrences(ns, n) == 1
  }

  datatype SortKey = BySpeed | ByQuality

  /** The comparators' tables: `rápido, médio, lento` and
      `excelente, boa, básica` rank 0, 1, 2. */
  function Rank(m: AIModel, key: SortKey): (r: nat)
    ensures r < 3
  {
    match key
    case BySpeed => (match m.speed case Rapido => 0 case Medio => 1 case Lento => 2)
    case ByQuality => (match m.quality case Excelente => 0 case Boa => 1 case Basica => 2)
  }

  /** The models of one rank, in their order in `s`. */
  function OfRank(s: seq<AIModel>, key: SortKey, k: nat): (r: seq<AIModel>)
    ensures |r| <= |s|
    ensures forall i :: 0 <= i < |r| ==> Rank(r[i], key) == k
  {
    if s == [] then [] else (if Rank(s[0], key) == k then [s[0]] else []) + OfRank(s[1..], key, k)
  }

  /** A stable sort by rank: rank 0, then 1, then 2, each in input order. */
  function StableSortByRank(s: seq<AIModel>, key: SortKey): seq<AIModel> {
    OfRank(s, key, 0) + OfRank(s, key, 1) + OfRank(s, key, 2)
  }

  predicate SortedByRank(s: seq<AIModel>, key: SortKey) {
    forall i, j :: 0 <= i < j < |s| ==> Rank(s[i], key) <= Rank(s[j], key)
  }

  lemma {:induction false} OfRankPartition(s: seq<AIModel>, key: SortKey)
    ensures multiset(OfRank(s, key, 0)) + multiset(OfRank(s, key, 1)) + multiset(OfRank(s, key, 2)) == multiset(s)
  {
    if s != [] {
      var x, rest := s[0], s[1..];
      OfRankPartition(rest, key);
      assert s == [x] + rest;
      OfRankStep(s, key, 0);
      OfRankStep(s, key, 1);
      OfRankStep(s, key, 2);
      AddToOnePart(x, multiset(OfRank(rest, key, 0)), multiset(OfRank(rest, key, 1)), multiset(OfRank(rest, key, 2)), Rank(x, key));
    }
  }

  /** Adding an element to exactly one of three parts adds it to their sum. */
  lemma AddToOnePart(x: AIModel, a: multiset<AIModel>, b: multiset<AIModel>, c: multiset<AIModel>, r: nat)
    requires r < 3
    ensures (if r == 0 then multiset{x} else multiset{}) + a
          + ((if r == 1 then multiset{x} else multiset{}) + b)
          + ((if r == 2 then multiset{x} else multiset{}) + c) == multiset{x} + (a + b + c)
  {
  }

  /** One step of the selection, counted as a multiset. */
  lemma OfRankStep(s: seq<AIModel>, key: SortKey, k: nat)
    requires s != []
    ensures multiset(OfRank(s, key, k)) ==
              (if Rank(s[0], key) == k then multiset{s[0]} else multiset{}) + multiset(OfRank(s[1..], key, k))
  {
  }

  lemma {:induction false} OfRankAppend(a: seq<AIModel>, b: seq<AIModel>, key: SortKey, k: nat)
    ensures OfRank(a + b, key, k) == OfRank(a, key, k) + OfRank(b, key, k)
  {
    if a == [] {
      assert a + b == b;
    } else {
      assert (a + b)[1..] == a[1..] + b;
      OfRankAppend(a[1..], b, key, k);
    }
  }

  /** Selecting one rank of a sequence all of whose elements have another
      rank gives nothing; selecting their own rank gives them all. */
  lemma {:induction false} OfRankUniform(s: seq<AIModel>, key: SortKey, k: nat)
    requires forall i :: 0 <= i < |s| ==> Rank(s[i], key) == k
    ensures OfRank(s, key, k) == s
    ensures forall j :: j != k ==> OfRank(s, key, j) == []
  {
    if s != [] {
      OfRankUniform(s[1..], key, k);
    }
  }

  /** Every element of a sequence has at least rank `k`. */
  predicate RanksAtLeast(s: seq<AIModel>, key: SortKey, k: nat) {
    forall i :: 0 <= i < |s| ==> k <= Rank(s[i], key)
  }

  /** A sorted sequence followed by one whose ranks are all at least the
      first one's largest rank is sorted. */
  lemma SortedConcat(a: seq<AIModel>, b: seq<AIModel>, key: SortKey, k: nat)
    requires SortedByRank(a, key) && SortedByRank(b, key)
    requires forall i :: 0 <= i < |a| ==> Rank(a[i], key) <= k
    requires RanksAtLeast(b, key, k)
    ensures SortedByRank(a + b, key)
  {
    var r := a + b;
    forall i, j | 0 <= i < j < |r| ensures Rank(r[i], key) <= Rank(r[j], key) {
      if j < |a| {
        assert r[i] == a[i] && r[j] == a[j];
      } else if i >= |a| {
        assert r[i] == b[i - |a|] && r[j] == b[j - |a|];
      } else {
        assert r[i] == a[i] && r[j] == b[j - |a|];
      }
    }
  }

  lemma UniformSorted(s: seq<AIModel>, key: SortKey, k: nat)
    requires forall i :: 0 <= i < |s| ==> Rank(s[i], key) == k
    ensures SortedByRank(s, key)
  {
  }

  /** The stable sort is a permutation of its input. */
  lemma StableSortPermutation(s: seq<AIModel>, key: SortKey)
    ensures multiset(StableSortByRank(s, key)) == multiset(s)
  {
    OfRankPartition(s, key);
  }

  /** The stable sort is sorted by rank. */
  lemma StableSortSorted(s: seq<AIModel>, key: SortKey)
    ensures SortedByRank(StableSortByRank(s, key), key)
  {
    var a, b, c := OfRank(s, key, 0), OfRank(s, key, 1), OfRank(s, key, 2);
    UniformSorted(a, key, 0);
    UniformSorted(b, key, 1);
    UniformSorted(c, key, 2);
    SortedConcat(a, b, key, 1);
    SortedConcat(a + b, c, key, 2);
  }

  /** The stable sort keeps the relative order of models of equal rank. */
  lemma StableSortStable(s: seq<AIModel>, key: SortKey, k: nat)
    requires k < 3
    ensures OfRank(StableSortByRank(s, key), key, k) == OfRank(s, key, k)
  {
    var a, b, c := OfRank(s, key, 0), OfRank(s, key, 1), OfRank(s, key, 2);
    OfRankAppend(a, b, key, k);
    OfRankAppend(a + b, c, key, k);
    OfRankUniform(a, key, 0);
    OfRankUniform(b, key, 1);
    OfRankUniform(c, key, 2);
    var pa, pb, pc := OfRank(a, key, k), OfRank(b, key, k), OfRank(c, key, k);
    assert OfRank(StableSortByRank(s, key), key, k) == pa + pb + pc;
    assert pa == (if k == 0 then a else []);
    assert pb == (if k == 1 then b else []);
    assert pc == (if k == 2 then c else []);
  }

  /** The stable sort is a permutation, is sorted by rank, and keeps the
      relative order of models of equal rank. */
  lemma StableSortCorrect(s: seq<AIModel>, key: SortKey)
    ensures multiset(StableSortByRank(s, key)) == multiset(s)
    ensures SortedByRank(StableSortByRank(s, key), key)
    ensures forall k :: 0 <= k < 3 ==> OfRank(StableSortByRank(s, key), key, k) == OfRank(s, key, k)
  {
    StableSortPermutation(s, key);
    StableSortSorted(s, key);
    forall k | 0 <= k < 3 ensures OfRank(StableSortByRank(s, key), key, k) == OfRank(s, key, k) {
      StableSortStable(s, key, k);
    }
  }

  lemma SortedLength(s: seq<AIModel>, key: SortKey)
    ensures |StableSortByRank(s, key)| == |s|
  {
    StableSortCorrect(s, key);
    assert |multiset(StableSortByRank(s, key))| == |multiset(s)|;
  }

  /** `Array.prototype.sort` with the rank comparator, on the shared array. */
  method SortInPlace(a: array<AIModel>, key: SortKey)
    modifies a
    ensures a[..] == StableSortByRank(old(a[..]), key)
  {
    var sorted := StableSortByRank(a[..], key);
    SortedLength(a[..], key);
    var i := 0;
    while i < a.Length
      invariant 0 <= i <= a.Length
      invariant forall j :: 0 <= j < i ==> a[j] == sorted[j]
    {
      a[i] := sorted[i];
      i := i + 1;
    }
  }

  /** The ids of some arrangement of the eight models, each once. */
  ghost predicate CatalogueIds(ids: seq<string>) {
    exists ns :: EachModelOnce(ns) && ids == IdsOf(ns)
  }

  /** `getModelsByStrategy`: `'speed'` and `'quality'` sort the shared array
      and read its ids; `'reliable-json'` and every other value leave it.
      While the array holds each model once, so does it afterwards, and
      every strategy returns each model's id once. */
  method GetModelsByStrategy(available: array<AIModel>, strategy: string) returns (ids: seq<string>)
    modifies available
    ensures strategy == "speed" ==> available[..] == StableSortByRank(old(available[..]), BySpeed)
    ensures strategy == "quality" ==> available[..] == StableSortByRank(old(available[..]), ByQuality)
    ensures strategy == "speed" ==> SortedByRank(available[..], BySpeed)
    ensures strategy == "quality" ==> SortedByRank(available[..], ByQuality)
    ensures strategy in {"speed", "quality"} ==> ids == Ids(available[..])
    ensures strategy == "reliable-json" ==>
              ids == IdsOf(ReliableJsonOrder()) && available[..] == old(available[..])
    ensures strategy !in {"speed", "quality", "reliable-json"} ==>
              ids == IdsOf(BalancedOrder()) && available[..] == old(available[..])
    ensures EachModelOnce(Names(old(available[..]))) ==>
              EachModelOnce(Names(available[..])) && CatalogueIds(ids)
  {
    if strategy == "speed" || strategy == "quality" {
      var key := if strategy == "speed" then BySpeed else ByQuality;
      ghost var before := available[..];
      SortInPlace(available, key);
      ids := Ids(available[..]);
      StableSortSorted(before, key);
      if EachModelOnce(Names(before)) {
        SortedIdsAreCatalogue(before, key);
      }
    } else if strategy == "reliable-json" {
      ids := IdsOf(ReliableJsonOrder());
      ReliableJsonHasEachModelOnce();
    } else {
      ids := IdsOf(BalancedOrder());
      BalancedHasEachModelOnce();
    }
  }

  /** One step of `OfRank`, counted name by name. */
  lemma OfRankConsOccurrences(s: seq<AIModel>, key: SortKey, k: nat, n: ModelName)
    requires s != []
    ensures Occurrences(Names(OfRank(s, key, k)), n)
            == (if Rank(s[0], key) == k && s[0].model == n then 1 else 0) + Occurrences(Names(OfRank(s[1..], key, k)), n)
  {
    var r := OfRank(s[1..], key, k);
    if Rank(s[0], key) == k {
      assert OfRank(s, key, k) == [s[0]] + r;
      assert ([s[0]] + r)[1..] == r;
      assert Names([s[0]] + r) == [s[0].model] + Names(r);
      assert ([s[0].model] + Names(r))[1..] == Names(r);
    } else {
      assert OfRank(s, key, k) == r;
    }
  }

  /** The models of the three ranks together are the models of `s`, name
      by name. */
  lemma {:induction false} OfRankOccurrences(s: seq<AIModel>, key: SortKey, n: ModelName)
    ensures Occurrences(Names(OfRank(s, key, 0)), n) + Occurrences(Names(OfRank(s, key, 1)), n)
            + Occurrences(Names(OfRank(s, key, 2)), n) == Occurrences(Names(s), n)
  {
    if s != [] {
      OfRankOccurrences(s[1..], key, n);
      OfRankConsOccurrences(s, key, 0, n);
      OfRankConsOccurrences(s, key, 1, n);
      OfRankConsOccurrences(s, key, 2, n);
      assert Names(s)[1..] == Names(s[1..]);
    }
  }

  lemma {:induction false} OccurrencesAppend(a: seq<ModelName>, b: seq<ModelName>, n: ModelName)
    ensures Occurrences(a + b, n) == Occurrences(a, n) + Occurrences(b, n)
  {
    if a == [] {
      assert a + b == b;
    } else {
      assert (a + b)[1..] == a[1..] + b;
      OccurrencesAppend(a[1..], b, n);
    }
  }

  lemma {:induction false} NamesAppend(a: seq<AIModel>, b: seq<AIModel>)
    ensures Names(a + b) == Names(a) + Names(b)
  {
    if a == [] {
      assert a + b == b;
    } else {
      assert (a + b)[1..] == a[1..] + b;
      NamesAppend(a[1..], b);
    }
  }

  /** Sorting moves models but neither adds nor drops one, name by name. */
  lemma SortKeepsOccurrences(s: seq<AIModel>, key: SortKey, n: ModelName)
    ensures Occurrences(Names(StableSortByRank(s, key)), n) == Occurrences(Names(s), n)
  {
    var a, b, c := OfRank(s, key, 0), OfRank(s, key, 1), OfRank(s, key, 2);
    OfRankOccurrences(s, key, n);
    NamesAppend(a, b);
    NamesAppend(a + b, c);
    OccurrencesAppend(Names(a), Names(b), n);
    OccurrencesAppend(Names(a + b), Names(c), n);
  }

  /** The catalogue's names in their initial order. */
  function CatalogueOrder(): seq<ModelName> {
    [GeminiFlash, GeminiPro, DeepSeekR1, DeepSeekBase, DeepSeekChimera, Llama31, LlamaNemotron, ShisaV2]
  }

  lemma CatalogueNames()
    ensures Names(AvailableModels()) == CatalogueOrder()
  {
  }

  /** No model is named twice. */
  predicate Distinct(ns: seq<ModelName>) {
    forall i, j :: 0 <= i < j < |ns| ==> ns[i] != ns[j]
  }

  lemma {:induction false} AbsentNoOccurrences(ns: seq<ModelName>, n: ModelName)
    requires n !in ns
    ensures Occurrences(ns, n) == 0
  {
    if ns != [] {
      assert ns[0] != n;
      AbsentNoOccurrences(ns[1..], n);
    }
  }

  /** In a list without repeats, a listed model occurs once. */
  lemma {:induction false} DistinctOccursOnce(ns: seq<ModelName>, n: ModelName)
    requires Distinct(ns) && n in ns
    ensures Occurrences(ns, n) == 1
  {
    var rest := ns[1..];
    assert Distinct(rest) by {
      forall i, j | 0 <= i < j < |rest| ensures rest[i] != rest[j] {
        assert rest[i] == ns[i + 1] && rest[j] == ns[j + 1];
      }
    }
    if ns[0] == n {
      assert n !in rest by {
        forall j | 0 <= j < |rest| ensures rest[j] != n {
          assert rest[j] == ns[j + 1];
        }
      }
      AbsentNoOccurrences(rest, n);
    } else {
      DistinctOccursOnce(rest, n);
    }
  }

  /** A list without repeats that names every model names each once. */
  lemma DistinctCoveringOnce(ns: seq<ModelName>)
    requires Distinct(ns)
    requires forall n: ModelName :: n in ns
    ensures EachModelOnce(ns)
  {
    forall n: ModelName ensures Occurrences(ns, n) == 1 {
      DistinctOccursOnce(ns, n);
    }
  }

  /** The initial catalogue has each model once. */
  lemma CatalogueHasEachModelOnce()
    ensures EachModelOnce(CatalogueOrder())
  {
    var ns := CatalogueOrder();
    forall n: ModelName ensures n in ns {
      match n
      case GeminiFlash => assert ns[0] == GeminiFlash;
      case GeminiPro => assert ns[1] == GeminiPro;
      case DeepSeekR1 => assert ns[2] == DeepSeekR1;
      case DeepSeekBase => assert ns[3] == DeepSeekBase;
      case DeepSeekChimera => assert ns[4] == DeepSeekChimera;
      case Llama31 => assert ns[5] == Llama31;
      case LlamaNemotron => assert ns[6] == LlamaNemotron;
      case ShisaV2 => assert ns[7] == ShisaV2;
    }
    DistinctCoveringOnce(ns);
  }

  /** The `'reliable-json'` list names each model once. */
  lemma ReliableJsonHasEachModelOnce()
    ensures EachModelOnce(ReliableJsonOrder())
  {
    var ns := ReliableJsonOrder();
    forall n: ModelName ensures n in ns {
      match n
      case GeminiFlash => assert ns[6] == GeminiFlash;
      case GeminiPro => assert ns[2] == GeminiPro;
      case DeepSeekR1 => assert ns[1] == DeepSeekR1;
      case DeepSeekBase => assert ns[3] == DeepSeekBase;
      case DeepSeekChimera => assert ns[0] == DeepSeekChimera;
      case Llama31 => assert ns[7] == Llama31;
      case LlamaNemotron => assert ns[5] == LlamaNemotron;
      case ShisaV2 => assert ns[4] == ShisaV2;
    }
    DistinctCoveringOnce(ns);
  }

  /** The fallback list names each model once. */
  lemma BalancedHasEachModelOnce()
    ensures EachModelOnce(BalancedOrder())
  {
    var ns := BalancedOrder();
    forall n: ModelName ensures n in ns {
      match n
      case GeminiFlash => assert ns[1] == GeminiFlash;
      case GeminiPro => assert ns[3] == GeminiPro;
      case DeepSeekR1 => assert ns[2] == DeepSeekR1;
      case DeepSeekBase => assert ns[0] == DeepSeekBase;
      case DeepSeekChimera => assert ns[4] == DeepSeekChimera;
      case Llama31 => assert ns[5] == Llama31;
      case LlamaNemotron => assert ns[6] == LlamaNemotron;
      case ShisaV2 => assert ns[7] == ShisaV2;
    }
    DistinctCoveringOnce(ns);
  }

  /** Whatever order earlier calls left the catalogue in, a sorting strategy
      returns each of the eight models' ids exactly once, in non-decreasing
      rank. */
  lemma SortedIdsAreCatalogue(s: seq<AIModel>, key: SortKey)
    requires EachModelOnce(Names(s))
    ensures EachModelOnce(Names(StableSortByRank(s, key)))
    ensures SortedByRank(StableSortByRank(s, key), key)
    ensures |Ids(StableSortByRank(s, key))| == |s|
  {
    StableSortSorted(s, key);
    SortedLength(s, key);
    forall n: ModelName ensures Occurrences(Names(StableSortByRank(s, key)), n) == 1 {
      SortKeepsOccurrences(s, key, n);
    }
  }

  /** The catalogue model an id names, if any. */
  function ModelNamed(id: string): Option<ModelName> {
    if id == ModelId(GeminiFlash) then Some(GeminiFlash)
    else if id == ModelId(GeminiPro) then Some(GeminiPro)
    else if id == ModelId(DeepSeekR1) then Some(DeepSeekR1)
    else if id == ModelId(DeepSeekBase) then Some(DeepSeekBase)
    else if id == ModelId(DeepSeekChimera) then Some(DeepSeekChimera)
    else if id == ModelId(Llama31) then Some(Llama31)
    else if id == ModelId(LlamaNemotron) then Some(LlamaNemotron)
    else if id == ModelId(ShisaV2) then Some(ShisaV2)
    else None
  }

  /** Each model's id names that model, so distinct models have distinct
      ids. */
  lemma ModelNamedInverse(n: ModelName)
    ensures ModelNamed(ModelId(n)) == Some(n)
  {
    IdLengths();
  }

  /** The eight ids have eight different lengths. */
  lemma IdLengths()
    ensures |ModelId(GeminiFlash)| == 32 && |ModelId(GeminiPro)| == 36
    ensures |ModelId(DeepSeekR1)| == 25 && |ModelId(DeepSeekBase)| == 30
    ensures |ModelId(DeepSeekChimera)| == 33 && |ModelId(Llama31)| == 37
    ensures |ModelId(LlamaNemotron)| == 47 && |ModelId(ShisaV2)| == 35
  {
  }

  /** `extractAndRepairJson`: `NotFound` is the thrown error. */
  datatype Extracted = Found(json: string) | NotFound

  function ExtractAndRepairJson(text: string): (r: Extracted)
    ensures r.NotFound? <==> '{' !in text || '}' !in text
    ensures r.Found? && IndexOf(text, '{') <= LastIndexOf(text, '}') ==>
              var json := text[IndexOf(text, '{')..LastIndexOf(text, '}') + 1];
              && r.json == json
              && json[0] == '{' && json[|json| - 1] == '}'
              && '}' !in text[LastIndexOf(text, '}') + 1..]
              && '{' !in text[..IndexOf(text, '{')]
    ensures r.Found? && IndexOf(text, '{') > LastIndexOf(text, '}') ==>
              r.json == text[LastIndexOf(text, '}') + 1..IndexOf(text, '{')]
  {
    var first := IndexOf(text, '{');
    var last := LastIndexOf(text, '}');
    if first == -1 || last == -1 then NotFound
    else Found(Substring(text, first, last + 1))
  }

  lemma IndexOfAtStart(s: string, c: char)
    requires |s| > 0 && s[0] == c
    ensures IndexOf(s, c) == 0
  {
  }

  lemma LastIndexOfAtEnd(s: string, c: char)
    requires |s| > 0 && s[|s| - 1] == c
    ensures LastIndexOf(s, c) == |s| - 1
  {
  }

  /** A text that starts with `{` and ends with `}` is kept whole. */
  lemma ExtractKeepsBraced(json: string)
    requires |json| > 0 && json[0] == '{' && json[|json| - 1] == '}'
    ensures ExtractAndRepairJson(json) == Found(json)
  {
    IndexOfAtStart(json, '{');
    LastIndexOfAtEnd(json, '}');
    assert json[0..|json|] == json;
  }

  /** Cleaning an already cleaned answer gives it back unchanged. */
  lemma ExtractIdempotent(text: string)
    requires ExtractAndRepairJson(text).Found?
    requires IndexOf(text, '{') <= LastIndexOf(text, '}')
    ensures ExtractAndRepairJson(ExtractAndRepairJson(text).json) == ExtractAndRepairJson(text)
  {
    ExtractKeepsBraced(ExtractAndRepairJson(text).json);
  }
}

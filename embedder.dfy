/** `LocalEmbedder`: a sentence-transformer embedder whose model is loaded lazily,
    at most once, and which pickles to its five settings only
    (src/cocoindex_code/embedder.py). */
module Embedder {
  import opened Wrappers
  import opened Schema

  /** The five settings an embedder is built from. */
  datatype Settings = Settings(
    modelNameOrPath: string,
    device: string,
    trustRemoteCode: bool,
    normalizeEmbeddings: bool,
    queryPromptName: Option<string>)

  /** The arguments a `SentenceTransformer` is constructed with. */
  datatype ModelId = ModelId(nameOrPath: string, device: string, trustRemoteCode: bool)

  /** A loaded sentence-transformer model; each construction yields a new object. */
  class SentenceTransformer {
    const id: ModelId

    constructor (id: ModelId)
      ensures this.id == id
    {
      this.id := id;
    }
  }

  /** What `SentenceTransformer(name, device=…, trust_remote_code=…)` raises for a
      `ModelId` (an unknown name, a failed download), or None when it succeeds. */
  type Construction = ModelId -> Option<Raised>

  /** `model.encode(texts, prompt_name=…, normalize_embeddings=…)` of the model built
      from a `ModelId`: the vectors, or what it raises. Foreign numeric code, so a
      parameter of the operations using it. */
  type Encoder = (ModelId, seq<string>, Option<string>, bool) -> Result<seq<Embedding>, Raised>

  /** `model.get_sentence_embedding_dimension()`, which may be unknown. */
  type DimensionProbe = ModelId -> Option<nat>

  /** A value of the pickled state dictionary. */
  datatype StateValue = Str(s: string) | Flag(b: bool) | Null

  const StateKeys: set<string> :=
    {"model_name_or_path", "device", "trust_remote_code", "normalize_embeddings", "query_prompt_name"}

  /** What `__setstate__` needs of a state: the four required keys with values of their
      types, and `query_prompt_name`, when present, a string or None. */
  predicate WellFormedState(state: map<string, StateValue>) {
    && "model_name_or_path" in state && state["model_name_or_path"].Str?
    && "device" in state && state["device"].Str?
    && "trust_remote_code" in state && state["trust_remote_code"].Flag?
    && "normalize_embeddings" in state && state["normalize_embeddings"].Flag?
    && ("query_prompt_name" in state ==> !state["query_prompt_name"].Flag?)
  }

  /** The settings `__setstate__` reads back; a missing `query_prompt_name` reads as None. */
  function SettingsFromState(state: map<string, StateValue>): Settings
    requires WellFormedState(state)
  {
    Settings(
      state["model_name_or_path"].s,
      state["device"].s,
      state["trust_remote_code"].b,
      state["normalize_embeddings"].b,
      if "query_prompt_name" in state && state["query_prompt_name"].Str?
      then Some(state["query_prompt_name"].s) else None)
  }

  /** A state saved before `query_prompt_name` existed restores it as None. */
  lemma MissingPromptNameIsNone(state: map<string, StateValue>)
    requires WellFormedState(state) && "query_prompt_name" !in state
    ensures SettingsFromState(state).queryPromptName == None
  {
  }

  /** The memoization key: the five settings as a tuple. */
  type MemoKey = (string, string, bool, bool, Option<string>)

  datatype DType = Float32

  /** `VectorSchema(dtype, size)`. */
  datatype VectorSchema = VectorSchema(dtype: DType, size: nat)

  class LocalEmbedder {
    var modelNameOrPath: string
    var device: string
    var trustRemoteCode: bool
    var normalizeEmbeddings: bool
    var queryPromptName: Option<string>
    /** `_model`: None until first use. */
    var model: SentenceTransformer?
    /** How many times a model has been constructed since the embedder was built or restored. */
    ghost var loads: nat

    /** The arguments `_get_model` constructs the model with. */
    function Id(): ModelId
      reads this
    {
      ModelId(modelNameOrPath, device, trustRemoteCode)
    }

    function CurrentSettings(): Settings
      reads this
    {
      Settings(modelNameOrPath, device, trustRemoteCode, normalizeEmbeddings, queryPromptName)
    }

    /** The model is loaded exactly when one construction has happened, and it was
        built from the current name, device and trust flag. */
    ghost predicate Valid()
      reads this
    {
      && (model == null <==> loads == 0)
      && loads <= 1
      && (model != null ==> model.id == Id())
    }

    /** `__init__`: store the settings, leave the model unloaded. */
    constructor (modelNameOrPath: string, device: string := "cpu", trustRemoteCode: bool := false,
                 normalizeEmbeddings: bool := true, queryPromptName: Option<string> := None)
      ensures Valid()
      ensures CurrentSettings() == Settings(modelNameOrPath, device, trustRemoteCode, normalizeEmbeddings, queryPromptName)
      ensures model == null && loads == 0
    {
      this.modelNameOrPath := modelNameOrPath;
      this.device := device;
      this.trustRemoteCode := trustRemoteCode;
      this.normalizeEmbeddings := normalizeEmbeddings;
      this.queryPromptName := queryPromptName;
      this.model := null;
      this.loads := 0;
    }

    /** `__getstate__`: exactly the five settings, never the model; restoring it gives
        the same settings back. */
    function GetState(): (state: map<string, StateValue>)
      reads this
      ensures state.Keys == StateKeys
      ensures WellFormedState(state) && SettingsFromState(state) == CurrentSettings()
    {
      map[
        "model_name_or_path" := Str(modelNameOrPath),
        "device" := Str(device),
        "trust_remote_code" := Flag(trustRemoteCode),
        "normalize_embeddings" := Flag(normalizeEmbeddings),
        "query_prompt_name" := if queryPromptName.Some? then Str(queryPromptName.value) else Null]
    }

    /** `__setstate__`: take the settings from the state and drop any loaded model. */
    method SetState(state: map<string, StateValue>)
      requires WellFormedState(state)
      modifies this
      ensures Valid()
      ensures CurrentSettings() == SettingsFromState(state)
      ensures model == null && loads == 0
    {
      modelNameOrPath := state["model_name_or_path"].s;
      device := state["device"].s;
      trustRemoteCode := state["trust_remote_code"].b;
      normalizeEmbeddings := state["normalize_embeddings"].b;
      queryPromptName := if "query_prompt_name" in state && state["query_prompt_name"].Str?
        then Some(state["query_prompt_name"].s) else None;
      model := null;
      loads := 0;
    }

    /** `_get_model`: construct the model on first use only, from the stored name,
        device and trust flag; later calls return the same object. When the
        construction raises, `_model` stays None and the next call tries again. */
    method GetModel(construct: Construction) returns (r: Result<SentenceTransformer, Raised>)
      requires Valid()
      modifies this`model, this`loads
      ensures Valid()
      ensures r.Success? ==> model == r.value && r.value.id == Id()
      ensures old(model) != null ==> r == Success(old(model)) && model == old(model) && loads == old(loads)
      ensures old(model) == null && construct(Id()).Some? ==>
        r == Failure(construct(Id()).value) && model == null && loads == old(loads)
      ensures old(model) == null && construct(Id()).None? ==> r.Success? && fresh(r.value) && loads == 1
    {
      if model == null {
        var raised := construct(Id());
        if raised.Some? {
          return Failure(raised.value);
        }
        model := new SentenceTransformer(Id());
        loads := loads + 1;
      }
      r := Success(model);
    }

    /** `embed`: encode documents with no prompt name, or raise what loading the model
        or encoding raises. */
    method Embed(construct: Construction, encode: Encoder, texts: seq<string>) returns (r: Result<seq<Embedding>, Raised>)
      requires Valid()
      modifies this`model, this`loads
      ensures Valid()
      ensures old(model) != null ==> model == old(model) && loads == old(loads)
      ensures old(model) == null && construct(Id()).Some? ==>
        r == Failure(construct(Id()).value) && model == null && loads == old(loads)
      ensures old(model) == null && construct(Id()).None? ==> fresh(model) && loads == 1
      ensures model != null ==> r == encode(Id(), texts, None, normalizeEmbeddings)
    {
      var m := GetModel(construct);
      if m.Failure? {
        return Failure(m.error);
      }
      r := encode(m.value.id, texts, None, normalizeEmbeddings);
    }

    /** `embed_query`: as `Embed`, but passing the configured query prompt name. */
    method EmbedQuery(construct: Construction, encode: Encoder, texts: seq<string>) returns (r: Result<seq<Embedding>, Raised>)
      requires Valid()
      modifies this`model, this`loads
      ensures Valid()
      ensures old(model) != null ==> model == old(model) && loads == old(loads)
      ensures old(model) == null && construct(Id()).Some? ==>
        r == Failure(construct(Id()).value) && model == null && loads == old(loads)
      ensures old(model) == null && construct(Id()).None? ==> fresh(model) && loads == 1
      ensures model != null ==> r == encode(Id(), texts, queryPromptName, normalizeEmbeddings)
    {
      var m := GetModel(construct);
      if m.Failure? {
        return Failure(m.error);
      }
      r := encode(m.value.id, texts, queryPromptName, normalizeEmbeddings);
    }

    /** `__coco_vector_schema__`: the model's dimension as a float32 vector schema, or a
        RuntimeError naming the model when the dimension is unknown, or what loading
        the model raises. */
    method GetVectorSchema(construct: Construction, dimension: DimensionProbe) returns (r: Result<VectorSchema, Raised>)
      requires Valid()
      modifies this`model, this`loads
      ensures Valid()
      ensures old(model) != null ==> model == old(model) && loads == old(loads)
      ensures old(model) == null && construct(Id()).Some? ==>
        r == Failure(construct(Id()).value) && model == null && loads == old(loads)
      ensures old(model) == null && construct(Id()).None? ==> fresh(model) && loads == 1
      ensures model != null && dimension(Id()).None? ==>
        r == Failure(RuntimeError("Embedding dimension is unknown for model " + modelNameOrPath + "."))
      ensures model != null && dimension(Id()).Some? ==> r == Success(VectorSchema(Float32, dimension(Id()).value))
    {
      var m := GetModel(construct);
      if m.Failure? {
        return Failure(m.error);
      }
      var dim := dimension(m.value.id);
      if dim.None? {
        return Failure(RuntimeError("Embedding dimension is unknown for model " + modelNameOrPath + "."));
      }
      return Success(VectorSchema(Float32, dim.value));
    }

    /** `__coco_memo_key__`: the five settings, so two embedders share a key exactly
        when they agree on every setting (the loaded model plays no part); the key
        carries the same settings as the pickled state. */
    function MemoKey(): (key: MemoKey)
      reads this
      ensures SettingsFromState(GetState()) == Settings(key.0, key.1, key.2, key.3, key.4)
    {
      (modelNameOrPath, device, trustRemoteCode, normalizeEmbeddings, queryPromptName)
    }
  }

  /** Memo keys are injective in the settings: embedders differing in any one setting
      get different keys, and embedders with equal settings share one. */
  lemma MemoKeyDistinguishes(a: LocalEmbedder, b: LocalEmbedder)
    ensures a.MemoKey() == b.MemoKey() <==> a.CurrentSettings() == b.CurrentSettings()
  {
  }
}

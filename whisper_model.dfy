/** The speech-recognition models the app offers (`WhisperModel`). */
module WhisperModel {
  import opened Wrappers

  /** The enum constants, in declaration order. */
  datatype WhisperModel = Base | LargeV3Turbo {
    function Id(): string {
      match this
      case Base => "base"
      case LargeV3Turbo => "large_v3_turbo"
    }

    function DisplayName(): string {
      match this
      case Base => "Base (快速)"
      case LargeV3Turbo => "Large V3 Turbo (精准)"
    }

    function FileName(): string {
      match this
      case Base => "ggml-base-q8_0.bin"
      case LargeV3Turbo => "ggml-large-v3-turbo-q8_0.bin"
    }

    function MinSizeBytes(): nat {
      match this
      case Base => 50 * 1024 * 1024
      case LargeV3Turbo => 500 * 1024 * 1024
    }

    function Description(): string {
      match this
      case Base => "识别速度快，适合日常使用 (~78MB)"
      case LargeV3Turbo => "识别准确率最高，需要更多内存 (~834MB)"
    }

    function RecommendedRamMB(): nat {
      match this
      case Base => 3000
      case LargeV3Turbo => 6000
    }

    /** Kotlin's `ordinal`: the position in the declaration. */
    function Ordinal(): nat {
      match this
      case Base => 0
      case LargeV3Turbo => 1
    }
  }

  /** `values()`: every constant, by ordinal. */
  function Values(): (vs: seq<WhisperModel>)
    ensures forall m: WhisperModel :: m in vs
    ensures forall i :: 0 <= i < |vs| ==> vs[i].Ordinal() == i
  {
    var vs := [Base, LargeV3Turbo];
    assert forall m: WhisperModel :: m in vs by {
      forall m: WhisperModel ensures m in vs {
        assert vs[m.Ordinal()] == m;
      }
    }
    vs
  }

  /** `find { it.id == id }`: the first model in `models` with that id. */
  function Find(models: seq<WhisperModel>, id: string): (r: Option<WhisperModel>)
    ensures r.None? <==> forall m :: m in models ==> m.Id() != id
    ensures r.Some? ==> exists i :: 0 <= i < |models| && models[i] == r.value && r.value.Id() == id
                                    && forall j :: 0 <= j < i ==> models[j].Id() != id
  {
    if models == [] then None
    else if models[0].Id() == id then Some(models[0])
    else
      var rest := Find(models[1..], id);
      assert forall m :: m in models <==> m == models[0] || m in models[1..];
      if rest.Some? then
        ghost var i :| 0 <= i < |models[1..]| && models[1..][i] == rest.value && rest.value.Id() == id
                       && forall j :: 0 <= j < i ==> models[1..][j].Id() != id;
        assert models[i + 1] == rest.value;
        rest
      else rest
  }

  /** `fromId`: the model with that id, or BASE when none has it. */
  function FromId(id: string): (m: WhisperModel)
    ensures (exists d: WhisperModel :: d.Id() == id) ==> m.Id() == id
    ensures (forall d: WhisperModel :: d.Id() != id) ==> m == Base
  {
    Find(Values(), id).GetOr(Base)
  }

  /** `getAvailableModels`: all models in declaration order. */
  function GetAvailableModels(): (r: seq<WhisperModel>)
    ensures forall m: WhisperModel :: m in r
    ensures forall i :: 0 <= i < |r| ==> r[i].Ordinal() == i
  {
    Values()
  }

  /** Every declared model is found again from its own id. */
  lemma FromIdRoundTrip(m: WhisperModel)
    ensures FromId(m.Id()) == m
  {
    var vs := Values();
    assert vs[0] == Base && vs[1] == LargeV3Turbo;
    var r := Find(vs, m.Id());
    assert r.Some? by { assert m in vs; }
    IdInjective(r.value, m);
  }

  /** An id that no model declares falls back to BASE. */
  lemma FromIdUnknown(id: string)
    requires forall m: WhisperModel :: m.Id() != id
    ensures FromId(id) == Base
  {
  }

  /** Declared ids are distinct. */
  lemma IdInjective(a: WhisperModel, b: WhisperModel)
    requires a.Id() == b.Id()
    ensures a == b
  {
  }
}

/**
 * The tensor applier object: a name-keyed registry of appliers filled in place while the
 * applier is constructed, and a dispatch loop that hands each model output tensor to the
 * applier registered under its name, mutating the caller's action and memory dictionaries.
 */
module TensorApplying {
  import opened Wrappers
  import opened TensorApplierSpec

  /** The caller's dictionary of agent id to last actions, which appliers mutate in place. */
  class ActionTable {
    var buffers: map<int, ActionBuffers>

    constructor (buffers: map<int, ActionBuffers>)
      ensures this.buffers == buffers
    {
      this.buffers := buffers;
    }
  }

  /** The dictionary of agent id to recurrent memory that the memory applier is bound to. */
  class MemoryTable {
    var entries: map<int, seq<real>>

    constructor (entries: map<int, seq<real>>)
      ensures this.entries == entries
    {
      this.entries := entries;
    }
  }

  class TensorApplier {
    /** Output-tensor name to the applier that consumes that tensor. */
    var dict: map<string, ApplierKind>
    /** The memory dictionary handed to the constructor, shared with the memory applier. */
    const memories: MemoryTable

    /** The registry is built from an empty dictionary: at most the three bindings the
     *  constructor makes and, unless the registry is empty, the recurrent output bound to the
     *  memory applier. */
    ghost predicate Valid()
      reads this
    {
      WellFormedRegistry(dict)
    }

    /** The object with its freshly allocated, still empty dictionary. */
    constructor Empty(memories: MemoryTable)
      ensures dict == map[] && this.memories == memories
    {
      dict := map[];
      this.memories := memories;
    }

    /** Construction of a tensor applier. Without a model the registry stays empty. With one,
     *  the mixed-actions check runs unless the model supports combined output, and a failing
     *  check aborts construction (the exception becomes a Failure); otherwise the continuous,
     *  discrete and memory bindings are made in that order, each overwriting a same-named
     *  earlier one. `deterministicInference` only configures the model inspector. */
    static method Create(
      actionSpec: ActionSpec,
      seed: int,
      memories: MemoryTable,
      sentisModel: Option<ModelInfo>,
      deterministicInference: bool)
      returns (r: Result<TensorApplier, ConfigError>)
      ensures Registry(actionSpec, seed, sentisModel).Failure? ==>
        r == Failure(Registry(actionSpec, seed, sentisModel).error)
      ensures Registry(actionSpec, seed, sentisModel).Success? ==>
        r.Success? && fresh(r.value) && r.value.memories == memories && r.value.Valid()
        && r.value.dict == Registry(actionSpec, seed, sentisModel).value
    {
      var applier := new TensorApplier.Empty(memories);
      if sentisModel.None? {
        return Success(applier);
      }
      var modelInfo := sentisModel.value;
      if !modelInfo.supportsContinuousAndDiscrete {
        var check := CheckAllContinuousOrDiscrete(actionSpec);
        if check.Fail? {
          return Failure(check.error);
        }
      }
      if actionSpec.numContinuousActions > 0 {
        var tensorName := modelInfo.continuousOutputName;
        applier.dict := applier.dict[tensorName := ContinuousOutput(actionSpec)];
      }
      var modelVersion := modelInfo.version;
      if actionSpec.numDiscreteActions > 0 {
        var tensorName := modelInfo.discreteOutputName;
        if modelVersion == MLAgents1_0 {
          applier.dict := applier.dict[tensorName := LegacyDiscreteOutput(actionSpec, seed)];
        }
        if modelVersion == MLAgents2_0 {
          applier.dict := applier.dict[tensorName := DiscreteOutput(actionSpec, seed)];
        }
      }
      applier.dict := applier.dict[RecurrentOutput := MemoryOutput];
      assert applier.dict == Registry(actionSpec, seed, sentisModel).value;
      RegistryWellFormed(actionSpec, seed, sentisModel);
      return Success(applier);
    }

    /** Hands each tensor, in list order, to the applier registered under its name, with the
     *  same agent ids; stops with an error naming the first tensor that has no applier.
     *  The registry itself is only read. */
    method ApplyTensors(tensors: seq<TensorProxy>, actionIds: seq<int>, lastActions: ActionTable, apply: ApplyEffect)
      returns (err: Option<UnknownOutput>)
      modifies lastActions, memories
      ensures err == Dispatch(dict, tensors, actionIds).error
      ensures AgentState(lastActions.buffers, memories.entries) ==
        Perform(Dispatch(dict, tensors, actionIds).calls,
                AgentState(old(lastActions.buffers), old(memories.entries)), apply)
    {
      ghost var d := Dispatch(dict, tensors, actionIds);
      DispatchCharacterized(dict, tensors, actionIds);
      ghost var start := AgentState(lastActions.buffers, memories.entries);
      var tensorIndex := 0;
      while tensorIndex < |tensors|
        invariant tensorIndex <= |d.calls|
        invariant AgentState(lastActions.buffers, memories.entries) == Perform(d.calls[..tensorIndex], start, apply)
      {
        var tensor := tensors[tensorIndex];
        if tensor.name !in dict {
          assert d.calls[..tensorIndex] == d.calls;
          return Some(UnknownTensorProxy(tensor.name));
        }
        var next := apply(dict[tensor.name], tensor, actionIds, AgentState(lastActions.buffers, memories.entries));
        lastActions.buffers, memories.entries := next.lastActions, next.memories;
        assert d.calls[..tensorIndex + 1][..tensorIndex] == d.calls[..tensorIndex];
        tensorIndex := tensorIndex + 1;
      }
      assert d.calls[..tensorIndex] == d.calls;
      return None;
    }
  }
}

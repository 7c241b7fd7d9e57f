# Tensor applier of the ML-Agents inference runtime, in Dafny

This project models the **tensor applier** of the Unity ML-Agents inference runtime
(`com.unity.ml-agents/Runtime/Inference/TensorApplier.cs`). After a policy model has been
evaluated, the runtime holds one output tensor per model head. The tensor applier decides what
to do with each one. It keeps a dictionary from output-tensor name to an *applier*:

- the continuous-action applier;
- the legacy discrete-action applier (model API 1.0);
- the current discrete-action applier (model API 2.0);
- the memory applier, which refreshes recurrent state.

For each inference step it hands every output tensor to the applier registered under that
tensor's name. The appliers then update the caller's per-agent action buffers and the shared
memory dictionary in place.

Files:

- `wrappers.dfy`: module `Wrappers`, with `Option`, `Result` and `Outcome`. These model the
  source's exceptions as values.
- `tensor_applier_spec.dfy`: module `TensorApplierSpec`.
  - The data model: action spec, model metadata, applier kinds, tensors and agent state.
  - `Registry`, the reference definition of the dictionary that construction builds. It is a
    map union in binding order, so a later binding wins over an earlier one of the same name.
  - `Dispatch`, the reference definition of the applier calls that a tensor list produces.
  - `Perform`, the state those calls reach.
  - The lemmas about all of the above.
- `tensor_applier.dfy`: module `TensorApplying`.
  - Class `TensorApplier`. Its `dict` field is filled in place, binding by binding, by the
    construction method `Create`. The dispatch loop `ApplyTensors` only reads it.
  - Classes `ActionTable` and `MemoryTable`. These model the two dictionaries the appliers
    mutate.

The applier bodies are not part of this model. What an applier's `Apply` does to the agents'
state is the parameter `apply: ApplyEffect` of `ApplyTensors`. The model proves which applier is
called, on which tensor, with which agent ids, and in what order, whatever the effect is.

Construction can throw, when `CheckAllContinuousOrDiscrete` rejects the action spec. So the C#
constructor is modelled as the static method `Create`, which returns
`Result<TensorApplier, ConfigError>`. The `UnityAgentsException` thrown by `ApplyTensors` is its
`Option<UnknownOutput>` result.

## Model

| member | source | states |
|---|---|---|
| `TensorApplying.TensorApplier.Empty` | com.unity.ml-agents/Runtime/Inference/TensorApplier.cs:37 | A new tensor applier starts with an empty name-to-applier dictionary and keeps the memory dictionary it was given. |
| `TensorApplying.TensorApplier.Create` | com.unity.ml-agents/Runtime/Inference/TensorApplier.cs:49-87 | Construction fails with the mixed-actions error exactly when `Registry` fails. Otherwise it returns a fresh applier whose dictionary is `Registry`'s and which satisfies `Valid()`: at most three bindings, with the recurrent output bound to the memory applier unless no model is given, in which case the dictionary is empty. The dictionary is built by successive in-place assignments, in the source's order. |
| `TensorApplying.TensorApplier.ApplyTensors` | com.unity.ml-agents/Runtime/Inference/TensorApplier.cs:97-110 | The error returned is exactly `Dispatch`'s error: the first unregistered tensor name, or none. The new action and memory dictionaries are the old ones with exactly `Dispatch`'s applier calls performed, in order. The registry is outside the frame, so it is only read. |
| `TensorApplierSpec.Registry` | com.unity.ml-agents/Runtime/Inference/TensorApplier.cs:57-86 | Without a model the registry is empty. Construction fails if and only if a model is given, the model lacks combined output support, and the spec has both kinds of actions. With a model, a successful registry is `Entries`: the bindings described by `EntriesLookup` and the lemmas after it. Whenever a model is given, it binds the recurrent output to the memory applier. |
| `TensorApplierSpec.EntriesLookup` | com.unity.ml-agents/Runtime/Inference/TensorApplier.cs:68-86 | A name is bound if and only if it is one of three names: the recurrent output; the continuous output name when there are continuous actions; the discrete output name when there are discrete actions and the model version is 1.0 or 2.0. Its applier is memory on the recurrent name; otherwise legacy discrete for version 1.0 or current discrete for 2.0 on the discrete name; otherwise continuous. |
| `TensorApplierSpec.MixedActionsRejectedUnlessSupported` | com.unity.ml-agents/Runtime/Inference/TensorApplier.cs:64-67 | Construction with a model fails if and only if the model lacks combined support and the check fails. With combined support the check never runs and every binding is made. |
| `TensorApplierSpec.ContinuousRegistered` | com.unity.ml-agents/Runtime/Inference/TensorApplier.cs:68-72 | If no later binding shares its name, the continuous output name is bound if and only if there are continuous actions. It is then bound to the continuous applier built from the action spec. |
| `TensorApplierSpec.DiscreteVariantByVersion` | com.unity.ml-agents/Runtime/Inference/TensorApplier.cs:73-85 | With discrete actions, the discrete output name is bound to the legacy applier for version 1.0 and to the current applier for version 2.0, both with the given seed. For any other version the name stays unbound, unless the continuous binding already used it. |
| `TensorApplierSpec.DiscreteOverwritesContinuous` | com.unity.ml-agents/Runtime/Inference/TensorApplier.cs:71-83 | When both output names coincide and a discrete applier is bound, the name ends up bound to the legacy discrete applier (version 1.0) or the current discrete applier (version 2.0), not to the continuous one. |
| `TensorApplierSpec.MemoryBindingWins` | com.unity.ml-agents/Runtime/Inference/TensorApplier.cs:86 | Whenever a model is given, the recurrent output is bound to the memory applier, because that binding is made last. So a continuous or discrete output name equal to the recurrent output name does not end up bound to the continuous or discrete applier. |
| `TensorApplierSpec.RegistryHasAtMostThreeEntries` | com.unity.ml-agents/Runtime/Inference/TensorApplier.cs:68-86 | A constructed registry never holds more than three bindings. |
| `TensorApplierSpec.RegistryWellFormed` | com.unity.ml-agents/Runtime/Inference/TensorApplier.cs:57-86 | Every constructed registry is either empty, or has at most three bindings with the recurrent output bound to memory. This is `Valid()`, which `Create` establishes for the applier it returns; `ApplyTensors` only reads the registry, so it keeps it. |
| `TensorApplierSpec.WellFormedAcceptsRecurrentOutput` | com.unity.ml-agents/Runtime/Inference/TensorApplier.cs:86-109 | A well-formed, non-empty registry (the one construction with a model yields) accepts a tensor named by the recurrent output: dispatching it alone makes exactly one memory-applier call and raises nothing. |
| `TensorApplierSpec.UnknownOutputMessage` | com.unity.ml-agents/Runtime/Inference/TensorApplier.cs:105-106 | The exception message for an unregistered tensor ends with that tensor's name. |
| `TensorApplierSpec.Dispatch` | com.unity.ml-agents/Runtime/Inference/TensorApplier.cs:100-109 | A dispatch makes at most one applier call per tensor. It ends without error if and only if every tensor got its call. |
| `TensorApplierSpec.DispatchCharacterized` | com.unity.ml-agents/Runtime/Inference/TensorApplier.cs:100-109 | The i-th call hands the i-th tensor to the applier registered under its name, with the same agent ids. A dispatch that fails stops at the first unregistered tensor, with an error naming it. |
| `TensorApplierSpec.PerformAppend` | com.unity.ml-agents/Runtime/Inference/TensorApplier.cs:108 | Performing two runs of applier calls one after the other gives the same state as performing their concatenation. |
| `TensorApplierSpec.EmptyDispatchDoesNothing` | com.unity.ml-agents/Runtime/Inference/TensorApplier.cs:100 | An empty tensor list makes no call, raises nothing and leaves the state unchanged. |
| `TensorApplierSpec.NoModelRejectsFirstTensor` | com.unity.ml-agents/Runtime/Inference/TensorApplier.cs:57-60 | Without a model the registry is empty. Dispatching any non-empty tensor list then fails at the first tensor, naming it, before any applier runs. |
| `TensorApplierSpec.AllRegisteredAllApplied` | com.unity.ml-agents/Runtime/Inference/TensorApplier.cs:100-109 | When every tensor name is registered, there is no error and exactly one call per tensor, in list order. |
| `TensorApplierSpec.FirstUnknownStops` | com.unity.ml-agents/Runtime/Inference/TensorApplier.cs:103-107 | At the first unregistered tensor k, the calls made are exactly those for tensors before k, and the error names tensor k. |
| `TensorApplierSpec.DispatchIgnoresSuffix` | com.unity.ml-agents/Runtime/Inference/TensorApplier.cs:103-107 | Tensors after a failing one are never looked at: appending tensors to a failing list does not change its dispatch. |
| `TensorApplierSpec.DispatchAppend` | com.unity.ml-agents/Runtime/Inference/TensorApplier.cs:100-109 | If the first list dispatches without error, dispatching `a + b` makes `a`'s calls followed by `b`'s, and ends with `b`'s error. |
| `TensorApplierSpec.DispatchInTurn` | com.unity.ml-agents/Runtime/Inference/TensorApplier.cs:100-109 | If every tensor in `a` is registered, dispatching `a + b` gives the same state and error as dispatching `a` and then `b`. |

## Left out

- The four applier implementations (`ContinuousActionOutputApplier`, `LegacyDiscreteActionOutputApplier`, `DiscreteActionOutputApplier`, `MemoryOutputApplier`) are not part of this model. The discrete ones sample from float logits with a seeded random generator. Each applier is an opaque `ApplierKind`. The continuous and discrete kinds carry the action spec and seed they are constructed with. `MemoryOutput` carries nothing: the memory dictionary it is bound to is the tensor applier's `memories` field. An applier's effect is the `apply` parameter, which acts on the action and memory dictionaries together.
- TensorApplying.TensorApplier.ApplyTensors: applier-internal state is not modelled. An example is the random generator that the discrete appliers advance on every `Apply`. The contract takes each call's effect to depend only on its applier kind, tensor, agent ids and the agents' state. If a tensor list names the same discrete applier twice, the source may sample differently on the second call; the model gives both calls the same effect function.
- TensorApplying.TensorApplier.ApplyTensors: tensor names are taken to be non-null. A null `tensor.name` makes `Dictionary.ContainsKey` throw `ArgumentNullException`; that exception path is not modelled.
- TensorApplying.TensorApplier.Create: the model's continuous and discrete output names are taken to be non-null. A null name makes the dictionary assignment throw `ArgumentNullException` during construction; that failure is not modelled.
- An exception thrown from inside an applier's `Apply` is not modelled. The effect function is total.
- `SentisModelInfo`, the cast of the model object to a Sentis `Model`, and its disposal are not part of this model. They are replaced by the `ModelInfo` record: combined-output support, the two output names and the API version. Failures while reading model metadata are not modelled.
- `deterministicInference` is accepted by `Create` but has no effect of its own. The source only forwards it to `SentisModelInfo`, where it may change the output names that the metadata reports. Any such effect is folded into the `ModelInfo` input.
- `ActionSpec` is reduced to its two action counts. The source's action spec also holds the per-branch sizes of the discrete actions, which only the discrete appliers read. Construction reads only the two counts.
- `ActionSpec.CheckAllContinuousOrDiscrete` is not part of this model. It is assumed to fail exactly when both action counts are positive, as its name states.
- `TensorNames.RecurrentOutput` and `SentisModelParamLoader.ModelApiVersion` are not part of this model. Their values are taken to be `"recurrent_out"`, 2 (`MLAgents1_0`) and 3 (`MLAgents2_0`). No property depends on these particular values beyond 2 and 3 being different.
- The enumeration order of the C# `Dictionary` is not modelled. Nothing in the core enumerates `m_Dict`.
- A model API version other than 1.0 or 2.0 registers no discrete applier, silently, exactly as the code does. It is not turned into an error.
- Tensors are applied in list order, as the code's indexed loop does. The model does not assume that appliers commute.
- Tensor shapes, and how the batch size relates to the number of agent ids, are not checked. The source leaves both to the appliers.
- Floats are modelled as mathematical reals inside opaque tensor data. No float arithmetic is modelled.

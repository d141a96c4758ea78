# Unity utility collection: levitation, layer switching and range remapping

This project is a Dafny model of three pieces of a small collection of Unity helper scripts:

- **Levitater** (`TransformUtilities/Levitater.cs`) is a component that floats its game object back and forth along an axis.
  - `ResetSettings` records the current position as the start and the lower endpoint (`minPos`). It makes the range non-negative and puts the upper endpoint (`maxPos`) one range along the axis. When the frequency is not zero, it derives the speed `2 * range / frequency`.
  - Every `FixedUpdate` moves the position by `dt * speed * (±1)` along the axis. When the projection of the remaining gap onto the axis shows the target endpoint has been reached or passed, the direction flips and the position snaps exactly onto that endpoint.
  - `OnDisable` puts the position back on the start.
  - The three public setters store the new value and rerun `ResetSettings`.
- **HierarchyUtils.RecursiveLayerSwitch** (`General/HierarchyUtils.cs`) assigns layers in place over a game object's hierarchy.
  - The root gets `targetLayer`.
  - The recursive call passes the constant `0`, so every object below the root gets layer 0.
  - The doc comment says all objects are switched to the target layer. The model follows the code, and `HierarchyUtils.ChildNotOnTargetLayer` shows the difference on a two-object hierarchy.
- **MathUtils.Remap** (`General/MathUtils.cs`) is the affine map from one range onto another. It does no clamping.

Layout:

- `vectors.dfy` (module `Vectors`): `Vec3` over the reals, with addition, subtraction, scaling and the dot product, standing in for `Vector3`.
- `levitater.dfy` (module `Levitation`) has three parts:
  - The component's state as a value (`LevitaterState`), with one function per operation: `Reset`, `Step`, `Restore`.
  - A one-dimensional reference (`Phase`, `PhaseStep`). It tracks only the offset along the axis and the direction. `StepAt`/`StepsAt` prove that the three-dimensional step is that reference step placed on the axis line.
  - The class `Levitater`. Its fields are the component's fields, and every method is proved to change them as the matching function says.
- `hierarchy_utils.dfy` (module `HierarchyUtils`) has two parts:
  - A value tree (`Tree`) and the specification of the switch (`Switched`), with its lemmas.
  - The class `GameObject`, with a mutable `layer`, and the in-place method `RecursiveLayerSwitch`, proved against `Switched`. The body of its `foreach` is the method `SwitchChild`, which makes the recursive call.
- `math_utils.dfy` (module `MathUtils`): `Remap` and its lemmas.

Points where the code behaves differently from what one might expect, and which the model follows:

- `Remap` does not guard the division (General/MathUtils.cs:15): there is no epsilon check and no error on a degenerate origin range, so `originMax != originMin` is a precondition.
- With a zero frequency, `ResetSettings` leaves the speed as it was (TransformUtilities/Levitater.cs:65-66). The old speed is kept, which is 0 if it was never set.
- The doc comment of `RecursiveLayerSwitch` (General/HierarchyUtils.cs:8 and 13) says all objects are switched to the target layer. The recursive call passes 0 (General/HierarchyUtils.cs:19), so layers below the root become 0.

## Model

| member | source | states |
|---|---|---|
| MathUtils.Remap | General/MathUtils.cs:13-16 | the result divides the target range in the same ratio as `value` divides the origin range; the origin range must not be degenerate because the division is unguarded |
| MathUtils.RemapOriginMin | General/MathUtils.cs:15 | `originMin` maps exactly to `targetMin` |
| MathUtils.RemapOriginMax | General/MathUtils.cs:15 | `originMax` maps exactly to `targetMax` |
| MathUtils.RemapRoundTrip | General/MathUtils.cs:15 | remapping forward and then back with the ranges swapped returns the original value, for two non-degenerate ranges |
| MathUtils.RemapMonotone | General/MathUtils.cs:15 | for an increasing origin range and a non-decreasing target range, a larger value never maps to a smaller one |
| MathUtils.RemapDoesNotClamp | General/MathUtils.cs:15 | a value above the origin range maps above the target range: there is no clamping |
| Levitation.Abs | TransformUtilities/Levitater.cs:59 | `Mathf.Abs`: the result is non-negative and is the argument or its negation |
| Levitation.Created | TransformUtilities/Levitater.cs:13-32 | a new component holds the inspector's range, frequency and axis and the transform's position, has speed 0 and zero endpoints and start, and heads up |
| Levitation.Reset | TransformUtilities/Levitater.cs:55-67 | reset records the position as start and lower endpoint, makes the range non-negative (± the old one) and puts the upper endpoint one range along the axis, so the endpoints are `Configured`; position, direction, axis and frequency are untouched |
| Levitation.ResetSpeed | TransformUtilities/Levitater.cs:65-66 | with a non-zero frequency, speed × frequency = 2 × range; with a zero frequency the old speed is kept; with a positive frequency the speed is non-negative |
| Levitation.ResetStartsAtLowerEnd | TransformUtilities/Levitater.cs:55-67 | after reset the position lies on the new segment at offset 0, the lower endpoint |
| Levitation.ZeroFrequencyStandsStill | TransformUtilities/Levitater.cs:65-83 | a freshly created component with frequency 0 gets speed 0 and an update leaves its position where it was |
| Levitation.StepAt | TransformUtilities/Levitater.cs:79-96 | on the axis line one update equals one step of the one-dimensional reference (move `dt * speed`, bounce off and snap to the end reached or passed); nothing else changes |
| Levitation.StepsAt | TransformUtilities/Levitater.cs:79-96 | `n` updates equal `n` reference steps |
| Levitation.StepStaysOnSegment | TransformUtilities/Levitater.cs:79-96 | bounds invariant: with a unit axis, `dt >= 0` and speed `>= 0`, a position on the segment stays on it (offset within [0, range]) |
| Levitation.Step | TransformUtilities/Levitater.cs:79-96 | an update changes only the position and the direction; on a flip the position is exactly the endpoint being approached, otherwise it moved `dt * speed * sign` along the axis |
| Levitation.StepFlipsIffEndpointReached | TransformUtilities/Levitater.cs:86-95 | on the segment, rising flips exactly when offset + travel reaches the range, falling flips exactly when offset − travel reaches 0 |
| Levitation.Restore | TransformUtilities/Levitater.cs:74-77 | OnDisable changes only the position, which becomes the recorded start |
| Levitation.RestoreReturnsToStart | TransformUtilities/Levitater.cs:74-77 | after reset, OnDisable puts the position on the start, the lower endpoint, keeping the direction |
| Levitation.RangeSetterRebuilds | TransformUtilities/Levitater.cs:36-40 | UpdateLevitationRange's reset rebuilds the endpoints from the current, possibly mid-cycle, position, stores the new range's magnitude and keeps the direction |
| Levitation.FrequencySetterRebuilds | TransformUtilities/Levitater.cs:42-46 | UpdateLevitationFrequency's reset rebuilds the endpoints from the current position, stores the new frequency and keeps the direction |
| Levitation.AxisSetterRebuilds | TransformUtilities/Levitater.cs:48-52 | UpdateLevitationAxis's reset, for a unit axis, puts the upper endpoint one range along the new axis from the current position and keeps the direction |
| Levitation.PhaseStepBounded | TransformUtilities/Levitater.cs:86-95 | the reference step with a non-negative travel keeps the offset in [0, range] |
| Levitation.FullCycle | TransformUtilities/Levitater.cs:79-96 | on a range of exactly `k` travels, `k` updates from the lower endpoint heading up land exactly on the upper one and turn round, and `2k` updates restore the starting state |
| Levitation.CycleLastsFrequencySeconds | TransformUtilities/Levitater.cs:65-96 | from a reset while heading up, with the derived speed, updates of `frequency / 2k` seconds reach the upper endpoint after `k` and are back at the start after `2k`: one cycle takes `frequency` seconds |
| Levitation.DownResetWastesUpdate | TransformUtilities/Levitater.cs:55-96 | a reset while heading down (the direction is never reset, lines 55-77) leaves the component on the lower endpoint, so the first update only turns it round there |
| Levitation.CycleAfterDownReset | TransformUtilities/Levitater.cs:55-96 | from a reset while heading down, the first update of `frequency / 2k` seconds stays off the upper endpoint; it is reached after `k + 1` updates and the start, heading up, after `2k + 1` |
| Levitation.TravelPerUpdate | TransformUtilities/Levitater.cs:66-83 | updates of `f / 2k` seconds at speed `2 * range / f` each travel `range / k` |
| Levitation.Levitater.constructor | TransformUtilities/Levitater.cs:12-32 | a new component holds the inspector settings, zero endpoints and speed, and starts moving up |
| Levitation.Levitater.ResetSettings | TransformUtilities/Levitater.cs:55-67 | the fields become `Reset` of the old fields; the position is then on the new segment at the lower endpoint |
| Levitation.Levitater.OnEnable | TransformUtilities/Levitater.cs:69-72 | the fields become `Reset` of the old fields |
| Levitation.Levitater.OnDisable | TransformUtilities/Levitater.cs:74-77 | only the position changes, back to the recorded start |
| Levitation.Levitater.FixedUpdate | TransformUtilities/Levitater.cs:79-96 | the fields become `Step` of the old fields (only position and direction change) and the bounds invariant is kept |
| Levitation.Levitater.UpdateLevitationRange | TransformUtilities/Levitater.cs:36-40 | the fields become `Reset` of the old fields with the new range |
| Levitation.Levitater.UpdateLevitationFrequency | TransformUtilities/Levitater.cs:42-46 | the fields become `Reset` of the old fields with the new frequency |
| Levitation.Levitater.UpdateLevitationAxis | TransformUtilities/Levitater.cs:48-52 | the fields become `Reset` of the old fields with the new axis |
| HierarchyUtils.Switched | General/HierarchyUtils.cs:14-20 | the switched hierarchy has its root on `targetLayer` and as many children as the original |
| HierarchyUtils.SwitchedLayers | General/HierarchyUtils.cs:16-19 | the root ends on `targetLayer` and every object below it on layer 0 |
| HierarchyUtils.SwitchedToZero | General/HierarchyUtils.cs:16-19 | with `targetLayer` 0 every object, the root included, ends on layer 0 |
| HierarchyUtils.SwitchedKeepsShape | General/HierarchyUtils.cs:16-19 | only layers change: the switched hierarchy has the original's shape |
| HierarchyUtils.SwitchedKeepsSize | General/HierarchyUtils.cs:18-19 | the switched hierarchy has as many objects as the original |
| HierarchyUtils.SwitchedCharacterized | General/HierarchyUtils.cs:14-20 | the switch is the unique hierarchy of the original's shape with the root on `targetLayer` and everything below on 0 |
| HierarchyUtils.SwitchedIdempotent | General/HierarchyUtils.cs:14-20 | switching twice with the same layer gives the result of switching once |
| HierarchyUtils.ChildNotOnTargetLayer | General/HierarchyUtils.cs:8-19 | a child of the switched root ends on 0, not on the target layer the doc comment promises |
| HierarchyUtils.OrderVisitsEachOnce | General/HierarchyUtils.cs:16-19 | the assignment order (the object, then each child's sub-hierarchy in turn) has no repeats and holds exactly the objects of the sub-hierarchy |
| HierarchyUtils.OrderLength | General/HierarchyUtils.cs:16-19 | the assignment order is as long as the hierarchy is large |
| HierarchyUtils.SwitchDone | General/HierarchyUtils.cs:14-20 | once the root and every child are switched, the hierarchy is `Switched` of the original, and the root followed by the children's orders is the assignment order: no repeats, exactly the objects of `Repr`, as many as the original hierarchy's size |
| HierarchyUtils.RecursiveLayerSwitch | General/HierarchyUtils.cs:14-20 | in place, the hierarchy becomes `Switched` of the old one; `visited`, the objects in the order their layers are assigned, is the assignment order, has no repeats, holds exactly the objects of `Repr` and is as long as the hierarchy is large; the recursion ends |
| HierarchyUtils.SwitchChild | General/HierarchyUtils.cs:18-19 | one pass of the `foreach`: child `i`'s sub-hierarchy is switched with layer 0 (the recursive call), so one more child is switched, and the objects it assigned extend the order of the children before it |

## Left out

- Floating point: all arithmetic is over unbounded reals. IEEE rounding, NaN and infinities are not modelled. This includes the infinity or NaN `Remap` returns for a degenerate origin range, which the model excludes instead.
- `Vector3.Normalize` in `ResetSettings` (TransformUtilities/Levitater.cs:60): the model has no square root, so the axis is required to be a unit vector already. Normalising it then changes nothing. Zeroing of tiny vectors is not modelled.
- Levitation.Levitater.UpdateLevitationAxis: requires a unit axis, while the source accepts any vector and normalises it.
- Levitation.StepStaysOnSegment: the bounds invariant needs `dt >= 0` and a non-negative speed. With a negative frequency the source's speed is negative and the component drifts away from its segment; the model states nothing for that case.
- Gizmo drawing in `OnDrawGizmosSelected` is rendering only. The `debugDrawLevitation` flag only feeds it.
- Unity scheduling: the engine's calls of `OnEnable`, `OnDisable` and `FixedUpdate` become explicit method calls, and `Time.fixedDeltaTime` becomes the `dt` parameter.
- Spinner: its behaviour is Unity's quaternion rotation, which is a call into the engine. Spinner is not part of this model.
- The singleton base class (engine object lifecycle) and the editor menu command that logs a position (I/O) are not part of this model.
- The quaternion-angle, bin-discretisation and random-point helpers are not in the modelled code.
- HierarchyUtils.GameObject: a game object's children and ownership set are constant fields. The switch never reparents anything, so "only layers change" holds by construction. Reparenting at other times is not modelled. The switch requires `Exact`: the ownership set holds nothing but the objects of the hierarchy, as the constructor makes it.
- HierarchyUtils.RecursiveLayerSwitch: Unity's layer setter accepts only layers 0 to 31 and otherwise logs an error and leaves the layer unchanged; the model assigns any integer. A null or destroyed `parent` makes the source throw at General/HierarchyUtils.cs:16; the model's `GameObject` is never null, so that case is not modelled.
- HierarchyUtils.RecursiveLayerSwitch: the `foreach` over `parent.transform` is an iteration over the children list in order. Unity's transform enumerator is not modelled.

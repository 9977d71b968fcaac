# Batch Material Helper — a verified model

Batch Material Helper is a Blender add-on. It adds a sidebar panel whose
settings record (`BatchMaterialProperties`) holds fifteen (value, `use_*`
checkbox) pairs. The pairs fall into three groups:

- six Principled BSDF inputs: Base Color, Metallic, Roughness, IOR, Alpha and
  IOR Level;
- six material settings: render method, displacement method, the three
  backface-culling flags and raytrace transmission;
- three viewport-display values: color, metallic and roughness.

The operator `material.batch_material_helper` walks every material slot of
every selected object, in order. For each slot that holds a material it
assigns each enabled setting and appends "<name>=<value>" to an
applied-properties log. At the end it reports that log, or cancels with a
warning when the log is empty.

The model has six modules:

- `Props` (props.dfy) is the settings record. It has the enum items, the
  declared bounds and the defaults.
- `Scene` (scene.dfy) is the part of the scene the operator touches.
  - Objects are values holding material slots.
  - Materials are a `class`, so one material can sit in several slots.
  - A material's shader nodes are values in a `seq` field that the operator
    reassigns.
  - It also holds the lookups: the first Principled BSDF node, an input by
    name, and the "IOR Level" socket.
- `MaterialApply` (apply.dfy) covers one visit.
  - `Apply` is the specification of one visit on values.
  - `ApplyToMaterial` and its helper methods make the same assignments in
    place, in the add-on's order. They are proved equal to `Apply`.
- `ApplyLemmas` (apply_lemmas.dfy) proves what one visit guarantees.
- `Operator` and `OperatorLemmas` (operator.dfy, operator_lemmas.dfy) cover
  the whole run.
  - `Run` is the walk over all slots on a map from materials to their
    states.
  - `Execute` performs it in place with nested loops. It is proved to leave
    every material in the state `Run` gives and, for a non-empty selection,
    to return `Verdict(Run(..))`.
  - The lemmas are stated about `Run`.

Floating-point values are only copied, never computed with, so they are
modelled as `real`. A log entry is a name plus a structured value; a color is
logged by its first three channels.

Three behaviours of the code shape the model:

- **A missing named input aborts the run.** The `try` at lines 291-298
  covers only the "IOR Level" write. An enabled Base Color, Metallic,
  Roughness, IOR or Alpha setting whose socket is missing raises a `KeyError`
  at lines 276-289, and it propagates out of `execute`. The model ends the run
  with `RaisedKeyError(name)` and keeps the writes made before it.
- **Cancelling depends on the log.** `execute` cancels when the log is empty
  (line 300), not when no checkbox is ticked. So an enabled Metallic setting
  on a selection with no Principled node is CANCELLED with "No properties
  selected to apply!".
- **Warnings come once per material visit.** The "IOR Level" warning (line
  298) is reported once per visit of a material whose node has neither an
  "IOR Level" socket nor a 14th socket, and the run goes on.

## Model

| member | source | states |
|---|---|---|
| Props.Defaults | __init__.py:16-200 | the declared defaults: no checkbox ticked, every value within its declared bounds, render method DITHERED, displacement BUMP, all four flags off |
| Props.RenderMethodTag | __init__.py:93-101 | each render-method item has its own identifier, DITHERED or BLENDED, and no other item shares it |
| Props.DisplacementMethodTag | __init__.py:107-116 | each displacement item has its own identifier, BUMP, DISPLACEMENT or BOTH |
| Scene.FirstPrincipled | __init__.py:273 | the result is the first node of type BSDF_PRINCIPLED; None exactly when there is no such node |
| Scene.FindInput | __init__.py:276-292 | the result is the first socket with the given name; None exactly when no socket has that name |
| Scene.IorLevelIndex | __init__.py:291-297 | the "IOR Level" socket is the one found by name; failing that, position 13 if the node has a 14th socket; None exactly when both fail |
| Scene.SetInput | __init__.py:276 | assigning one socket's default value changes that socket's value only: same name, same node types, every other node and socket unchanged |
| Scene.AllSlots | __init__.py:236-238 | the slots the operator walks, object by object and slot by slot; every one of them is a slot of some selected object (`AllSlotsMember` gives the converse) |
| Scene.AllSlotsAppend | __init__.py:236-238 | the slots of two concatenated selections are the slots of the first followed by those of the second |
| Scene.AllSlotsMember | __init__.py:236-239 | every slot of every selected object is among the slots the operator walks |
| Scene.FindInputByNames | __init__.py:276-292 | a name lookup depends on the socket names only, so writing values never changes what a later lookup finds |
| Scene.FirstPrincipledByKinds | __init__.py:273 | the Principled node search depends on the node types only |
| MaterialApply.Principled | __init__.py:271-274 | the node the BSDF settings are written to is the first Principled BSDF node of a material with `use_nodes` set; there is none exactly when `use_nodes` is off or no node is of that type |
| MaterialApply.Entry | __init__.py:244-296 | the "<name>=<value>" entry a setting appends when applied; a BSDF setting's entry carries the name the setting is looked up by ("IOR Level" also when the write falls back to position 13) and the value written |
| MaterialApply.MaterialFields | __init__.py:242-269 | the material after the nine material-level assignments; they never touch `use_nodes` or the nodes (what they set is stated by `ApplyHoldsMaterialLevel` and `ApplyFrameFields`) |
| MaterialApply.MaterialLog | __init__.py:242-269 | the entries of the enabled material-level settings, in the add-on's order; empty exactly when none of the nine material-level checkboxes is ticked |
| MaterialApply.SetNamed | __init__.py:275-289 | one write by name: after an earlier raise it changes nothing; it raises exactly when its setting is enabled and no socket has the name, and then it raises that name; it never sets the warning, and at most appends its own entry to the log |
| MaterialApply.SetIorLevel | __init__.py:290-298 | the "IOR Level" write never raises; it sets the warning exactly when the setting is enabled, nothing raised before, and neither the named socket nor position 13 exists; at most it appends the "IOR Level" entry |
| MaterialApply.BsdfWrites | __init__.py:274-298 | the six writes to the Principled node's inputs in the add-on's order; a warning comes only with IOR Level enabled and never after a raise (the raised name is stated by `ApplyRaisesFirst`) |
| MaterialApply.Apply | __init__.py:239-298 | one visit on values: the material-level assignments, then the writes to the first Principled node; only a material with `use_nodes` set can raise or warn, and a visit that raised does not warn (the `ApplyLemmas` rows state the rest) |
| MaterialApply.ApplyToMaterial | __init__.py:239-298 | the in-place visit of one material leaves it in the state `Apply` gives and returns the same log, warning flag and error |
| MaterialApply.SetMaterialFields | __init__.py:242-269 | the nine material-level assignments: each enabled field takes its value, the others keep theirs, and the log lists the enabled ones in order |
| MaterialApply.SetSurfaceMethods | __init__.py:242-247 | render and displacement method are set when enabled; every other field is unchanged; each assignment is logged |
| MaterialApply.SetBackfaceCulling | __init__.py:248-256 | the three culling flags are set when enabled; every other field is unchanged; each assignment is logged |
| MaterialApply.SetTransparentShadow | __init__.py:257-259 | raytrace transmission is set when enabled; every other field is unchanged |
| MaterialApply.SetViewportDisplay | __init__.py:261-269 | viewport color, metallic and roughness are set when enabled; every other field is unchanged |
| MaterialApply.WriteInput | __init__.py:276 | one socket write changes that socket of that node only |
| MaterialApply.SetPrincipledInputs | __init__.py:274-298 | the six BSDF writes in order change only the first Principled node's inputs, as `BsdfWrites` gives; after a missing named input it stops and reports that name |
| MaterialApply.SetNamedInput | __init__.py:275-289 | one write by name: if enabled and found, the socket takes the value and is logged; if enabled and missing, the name is raised and nothing is written |
| MaterialApply.SetIorLevelInput | __init__.py:290-298 | the "IOR Level" write by name, else at position 13, logged; when neither exists only the warning is set |
| ApplyLemmas.BsdfKeepsNames | __init__.py:275-298 | the BSDF writes keep the number and the names of the node's sockets |
| ApplyLemmas.ApplyKeepsShape | __init__.py:271-298 | a visit keeps the node-use flag, every node's type and every socket's name |
| ApplyLemmas.BsdfWritesIdempotent | __init__.py:275-298 | repeating the BSDF writes on their own output gives the same inputs, log, warning and error |
| ApplyLemmas.ApplyIdempotent | __init__.py:240-298 | visiting a material a second time gives the same state, log, warning and error as the first visit |
| ApplyLemmas.MaterialFieldsIdempotent | __init__.py:242-269 | the material-level assignments are idempotent, whatever the nodes hold |
| ApplyLemmas.FirstMissing | __init__.py:275-289 | the first enabled named setting, in write order, whose socket is missing; None exactly when there is none |
| ApplyLemmas.StageRaised | __init__.py:275-289 | after the first t writes by name, the raised name is that of the first missing setting among them |
| ApplyLemmas.StageRaisedStays | __init__.py:275-298 | once a write has raised, no later write changes anything |
| ApplyLemmas.ApplyRaisesIff | __init__.py:271-298 | a visit raises exactly when the material has a Principled node and some enabled named setting has no socket of its name |
| ApplyLemmas.ApplyRaisesFirst | __init__.py:275-289 | the raised name is that of the first missing enabled setting, in write order |
| ApplyLemmas.ApplyFrameFields | __init__.py:242-269 | a material-level field whose checkbox is off keeps its value |
| ApplyLemmas.ApplyKeepsFields | __init__.py:242-298 | apart from the nodes, a visit leaves exactly what the material-level assignments leave |
| ApplyLemmas.ApplyFrameNodes | __init__.py:271-298 | every node except the first Principled one is unchanged, and on that node every socket no enabled BSDF setting targets is unchanged |
| ApplyLemmas.ApplyHoldsNamed | __init__.py:275-289 | after a visit that does not raise, each enabled named setting's socket holds its value, unless the IOR Level write went to that same socket |
| ApplyLemmas.ApplyHoldsMaterialLevel | __init__.py:242-269 | after a visit, each enabled material-level field holds its setting's value |
| ApplyLemmas.WithoutIorLevel | __init__.py:290 | the settings with only the IOR Level checkbox cleared: every other setting and log entry is the same |
| ApplyLemmas.StageIgnoresIorLevel | __init__.py:275-289 | the five writes by name do not depend on the IOR Level setting |
| ApplyLemmas.ApplyWarnedIff | __init__.py:290-298 | a visit warns exactly when it has a Principled node, IOR Level is enabled, nothing raised, and neither the named socket nor position 13 exists |
| ApplyLemmas.ApplyIorLevelFound | __init__.py:291-296 | when the IOR Level socket exists, it takes the value, the last log entry is "IOR Level", and there is no warning |
| ApplyLemmas.ApplyIorLevelMissed | __init__.py:297-298 | when the IOR Level socket is missing, the visit is the one without IOR Level, plus the warning |
| ApplyLemmas.ExpectedAppend | __init__.py:240-298 | the reference log of a concatenation of settings is the concatenation of their reference logs |
| ApplyLemmas.ExpectedMaterialLog | __init__.py:242-269 | the reference log of the nine material-level settings is the material-level log |
| ApplyLemmas.StageLog | __init__.py:275-298 | when nothing has raised, the BSDF writes log one entry per enabled setting that reaches its socket, in order |
| ApplyLemmas.ApplyLogOrder | __init__.py:240-298 | when a visit does not raise, its log has one entry per enabled setting it reaches, in the add-on's order |
| ApplyLemmas.ApplyLogRaised | __init__.py:240-289 | when a visit raises at a setting, its log is the reference log of the settings before it |
| ApplyLemmas.ApplyQuietUnchanged | __init__.py:240-298 | a visit that logs nothing leaves the material unchanged |
| ApplyLemmas.ApplyNoneEnabled | __init__.py:240-298 | with no checkbox ticked, a visit changes nothing, logs nothing, warns about nothing and raises nothing |
| Operator.Run | __init__.py:236-298 | the walk keeps a state for exactly the materials it started with |
| Operator.Execute | __init__.py:208-306 | an empty selection is cancelled with "No objects selected!"; otherwise the status, log and reports are the verdict on `Run`, and every reachable material ends in the state `Run` gives |
| Operator.Verdict | __init__.py:300-306 | the end of a run over a non-empty selection: a raise ends it as it stands, with no final report; otherwise it is CANCELLED with "No properties selected to apply!" exactly when the log is empty, and FINISHED with one INFO report of the log exactly when it is not |
| Operator.VisitSlots | __init__.py:238-298 | the slot loop of one object extends the walk by its slots and stops at a raised error |
| Operator.VisitSlot | __init__.py:239-298 | one slot's visit extends the walk by that slot: new state, log, warning and error |
| Operator.PrefixStep | __init__.py:236-238 | the slots of the first i+1 objects are those of the first i followed by object i's, and they are a prefix of all the slots |
| Operator.RunStaysRaised | __init__.py:275-289 | once a lookup has raised, no later slot changes anything |
| OperatorLemmas.RunUntouched | __init__.py:236-240 | a material in no walked slot keeps its state |
| OperatorLemmas.RunQuiet | __init__.py:236-304 | a run that logs nothing changes no material, whether it is then cancelled or a lookup raised |
| OperatorLemmas.RunNoneEnabled | __init__.py:300-304 | with no checkbox ticked, the run changes nothing and is cancelled with "No properties selected to apply!" |
| OperatorLemmas.VisitAgain | __init__.py:238-298 | visiting a material that is already in its once-visited state repeats the first visit's log, warning and error, and leaves the state as it is |
| OperatorLemmas.RunIndependent | __init__.py:236-298 | without an error, each material ends in the state one visit from its original state gives, however many slots hold it; the log and the warnings are the per-slot ones of those visits |
| OperatorLemmas.NoneRaiseLast | __init__.py:236-289 | no slot raises up to the last one exactly when none raised before it and the last one does not raise |
| OperatorLemmas.RunRaisesIff | __init__.py:236-289 | a run raises exactly when the visit of some slot's material from its original state raises |
| OperatorLemmas.RunReached | __init__.py:236-298 | for every run, with or without an error: each material in a reached slot ends as one visit from its original state leaves it, every other material keeps its state, the log and warnings are the per-slot ones of the reached slots, and the error is that of the last reached slot's visit |
| OperatorLemmas.SameReached | __init__.py:236-289 | start states whose visits raise alike reach the same slots |
| OperatorLemmas.RunEndStates | __init__.py:236-298 | after any run, every material is in its original state or in the state one visit from its original state gives |
| OperatorLemmas.RunFrameFields | __init__.py:242-269 | after any run, with or without an error, no material has a material-level field changed whose checkbox is off |
| OperatorLemmas.RunHoldsMaterialLevel | __init__.py:236-269 | after any run, every material in a reached slot holds each enabled material-level value; when the run did not raise, every slot is reached, so every material of the selection holds them |
| OperatorLemmas.RunFrameNodes | __init__.py:236-298 | after any run, with or without an error, each material differs from its original state at most on the sockets of its first Principled node that an enabled BSDF setting targets |
| OperatorLemmas.RunIdempotent | __init__.py:208-306 | running again on the materials any run left, including one that raised, changes no state and gives the same log, reports and error |
| OperatorLemmas.HeapFixed | __init__.py:236-298 | a second walk from once-visited states leaves them as they are |

## Left out

- The panel (`VIEW3D_PT_batch_material_helper`) and its `draw`, `register` and `unregister` are left out: they are interface and host registration code, not logic of the core.
- The host property system checks the `min`/`max` bounds. The operator relies on it and never checks them, so the model states the bounds (`Props.InBounds`) without enforcing them.
- The text of the report is left out: float formatting, the Python display of booleans and tuples, and the `', '.join`. The INFO report carries the log entries as structured values (`Report.Info`).
- Undo and the host's handling of an uncaught exception are outside the model. A raised `KeyError` is the status `RaisedKeyError(name)`, with the writes made before it kept.
- Of the errors that can leave `execute`, only the missing-name `KeyError` is modelled. A socket that rejects the value's shape would also raise (for example a color socket at position 13 given a scalar), and this is not modelled.
- A material with `use_nodes` set is taken to have a node tree; its nodes are the `nodes` sequence.
- The selection and the slots come in as parameters, in the order the host lists them.
- Operator.Run passes over a material it has no state for. `Execute` starts it from the states of all materials it reaches, so this branch is never taken there.
- ApplyLemmas.ApplyHoldsNamed: excludes the case where the IOR Level write lands on the same socket as a named setting. The position-13 fallback can be such a socket, and then the IOR Level value overwrites the named value.

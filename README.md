# XrmMockup plugin manager, modelled in Dafny

This project models the plugin dispatch core of XrmMockup, an in-memory
emulator of the Dynamics 365 / CRM organisation service. The class is
`PluginManager`, together with its nested `PluginTrigger`. The model covers:

- **Registration.**
  - Each plugin type brings the step configurations it declares, or one
    configuration built from the first platform step registration of the same
    assembly name.
  - A type with neither is an unknown plugin, and the constructor throws.
  - Every configuration becomes a trigger that is appended to the bucket of
    its (operation, stage).
  - Each bucket is then sorted by execution order.
  - Additional plugins go to the permanent or the temporary registry,
    appended and not re-sorted.
  - `ResetPlugins` drops the temporary registry and re-enables the permanent
    one. `DisabelRegisteredPlugins` sets the flag that skips the permanent
    registry.
- **Dispatch.**
  - `Trigger` offers an event to the permanent bucket of its operation and
    stage (unless disabled), then to the temporary one. `TriggerSystem`
    offers it to the system bucket.
  - A missing bucket does nothing.
  - Steps run in list order. The first exception ends the pass.
- **One step (`ExecuteIfMatch`).** The guards run in source order:
  1. the entity-name check, which skips the step;
  2. the primary-id stamp, which writes into the caller's record;
  3. the depth ceiling of 8, which throws the infinite-loop fault;
  4. the shadow merge on Update/PostOperation;
  5. the attribute filter on Update, which skips the step;
  6. the Associate/Disassociate scope rule, which throws.

  After the guards, the step builds the child context and attaches the
  declared pre- and post-images. It calls the plugin, then writes the child's
  shared variables back into the parent.

The modules follow the program's structure:

| module | file | what |
|---|---|---|
| `Wrappers` | wrappers.dfy | `Option`, `Result` |
| `Text` | text.dfy | `Split`/`Join` on a separator, `String.IsNullOrWhiteSpace` |
| `Xrm` | xrm.dfy | records, event targets, operations, stage/mode/image-type constants, step configurations, errors |
| `Contexts` | contexts.dfy | the plugin context (a class updated in place), shared-variable merge |
| `Triggers` | triggers.dfy | `PluginTrigger`: filter parsing, `CompareTo`, the guards, the child context, the images, `ExecuteIfMatch` |
| `StepProperties` | step_properties.dfy | lemmas about what one step does |
| `Registries` | registries.dfy | the nested operation → stage → list dictionary, `AddTrigger`'s append, the per-bucket sort |
| `Plugins` | plugins.dfy | registration outcome, the dispatch pass, the `PluginManager` class |
| `Scenarios` | scenarios.dfy | concrete Update events offered to two concrete steps, at PreOperation and at PostOperation |

Modelling choices:

- **Specification functions and methods.**
  - `PluginTrigger.Decide` is the specification of one step.
    `PluginTrigger.ExecuteIfMatch` is the imperative step, proved equal to it.
  - `RunPass` is the specification of a `ForEach` over a bucket. It returns
    a `Pass`: the exception that ended the pass, the target as the steps left
    it, the parent's shared variables, and the steps whose plugin was called.
  - `PluginManager.Trigger` and `PluginManager.TriggerSystem` are proved
    equal to `RunPass` over `Active(State(), op, stage)` and over the system
    bucket.
- **Handlers.** A plugin's behaviour is the `execute` parameter: a function
    from the plugin's name and the child context to either its returned
    shared variables or the exception it threw.
- **Registries.** The three dictionaries are `Registry` objects. The class
    is needed because `RegisterPlugin`, `AddTrigger` and `SortAllLists`
    mutate the dictionary they are passed. `ResetPlugins` allocates a new
    temporary registry, as the source does.
- **Behaviour worth noting:**
  - An unknown plugin type ends the whole construction (the throw at lines
    147-151 escapes the constructor). The batch does not skip it and go on.
  - An image of type Both with no pre-image is a null dereference. The
    condition at line 365 reads `(preImage != null && type == PreImage) || type == Both`,
    so this image is not simply left out.
  - The system-plugin loop reuses one configuration list across plugins.
    Each system plugin therefore re-registers the configurations of the
    plugins before it, running itself (`SystemConfigsAccumulate`). The
    source's own list of system plugins is empty.

## Model

| member | source | states |
|---|---|---|
| Text.JoinSplit | src/XrmMockupShared/Plugin/PluginManager.cs:361 | splitting a column list on ',' and joining it back gives the original text |
| Text.SplitPiecesAvoidSeparator | src/XrmMockupShared/Plugin/PluginManager.cs:303 | no piece of `Split(',')` contains a comma |
| Text.SplitCount | src/XrmMockupShared/Plugin/PluginManager.cs:303 | `Split` yields one more piece than there are separators |
| Text.SplitWithoutSeparator | src/XrmMockupShared/Plugin/PluginManager.cs:303 | text without a separator splits into itself alone |
| Text.SplitJoin | src/XrmMockupShared/Plugin/PluginManager.cs:303 | joining comma-free pieces and splitting again gives the pieces back, so the comma-free pieces that join to a text are exactly its split |
| Contexts.Merged | src/XrmMockupShared/Plugin/PluginManager.cs:378-381 | after the write-back the parent holds the keys of both maps, the child's values win, and other parent values are kept |
| Contexts.PluginContext.Clone | src/XrmMockupShared/Plugin/PluginManager.cs:351 | the child context is a new object with the parent's contents |
| Contexts.PluginContext.MergeSharedVariables | src/XrmMockupShared/Plugin/PluginManager.cs:378-381 | the key-by-key loop leaves the shared variables equal to `Merged(old, child)`, and nothing else changes |
| Triggers.FilterSet | src/XrmMockupShared/Plugin/PluginManager.cs:302-303 | the filter set is empty exactly when the filter string is null or white space; otherwise it is the set of comma-free pieces that join with commas to the string, that is, the pieces of `Split(',')` (unique by `Text.SplitJoin`) |
| Triggers.ImageColumns | src/XrmMockupShared/Plugin/PluginManager.cs:361 | all columns exactly when the image has no attribute list; otherwise a non-empty list of comma-free names that joins back to the configured text, that is, its `Split(',')` (unique by `Text.SplitJoin`) |
| Triggers.TargetId | src/XrmMockupShared/Plugin/PluginManager.cs:312 | a record or a reference gives its own id; a request or any other object gives the empty id |
| Triggers.TargetName | src/XrmMockupShared/Plugin/PluginManager.cs:314 | a record or a reference gives its logical name, a request its request name, and anything else null |
| Triggers.ShadowMerged | src/XrmMockupShared/Plugin/PluginManager.cs:328-332 | the examined record has the target's attributes with their own values, plus exactly the post-image attributes that neither the pre-image nor the target holds, with the post-image's values; name and id are kept |
| Triggers.SharedAfter | src/XrmMockupShared/Plugin/PluginManager.cs:372-381 | when the plugin returned, the parent holds the keys of both maps, with the child's value for every child key and its own value for the others; when it threw or was not called, the parent is unchanged |
| Triggers.PluginTrigger.CompareTo | src/XrmMockupShared/Plugin/PluginManager.cs:384-386 | the result is -1, 0 or 1; it is negative iff this order is smaller and 0 iff the orders are equal |
| Triggers.PluginTrigger.Stamp | src/XrmMockupShared/Plugin/PluginManager.cs:318-320 | a record whose metadata names a primary-id attribute gets that attribute set to its id, and every other attribute is kept; any other target is unchanged |
| Triggers.PluginTrigger.WorkingEntity | src/XrmMockupShared/Plugin/PluginManager.cs:328-336 | on Update/PostOperation: a missing post-image, a target that is not a record, or a missing pre-image with a non-empty post-image is a null dereference, and nothing else is; otherwise the examined record is the shadow-merged copy. At any other operation and stage it is the target record itself, or none |
| Triggers.PluginTrigger.Screen | src/XrmMockupShared/Plugin/PluginManager.cs:322-348 | a guard that ends the step never reports an invocation |
| Triggers.PluginTrigger.Invoke | src/XrmMockupShared/Plugin/PluginManager.cs:350-376 | once past the guards the step is never skipped: it throws or calls the plugin |
| Triggers.PluginTrigger.HasFilteredAttribute | src/XrmMockupShared/Plugin/PluginManager.cs:334-343 | the `foundAttr` loop answers true exactly when some attribute of the record is in the filter set |
| Triggers.PluginTrigger.AddImages | src/XrmMockupShared/Plugin/PluginManager.cs:359-368 | the image loop leaves the context equal to `AttachImages` of the old context, or stops with its error |
| Triggers.PluginTrigger.ScreenStep | src/XrmMockupShared/Plugin/PluginManager.cs:322-348 | the guard statements give exactly the outcome of `Screen` |
| Triggers.PluginTrigger.InvokeStep | src/XrmMockupShared/Plugin/PluginManager.cs:350-381 | builds the child context, attaches images and calls the plugin as `Invoke` says; the parent changes only in its shared variables, per `SharedAfter` |
| Triggers.PluginTrigger.ExecuteIfMatch | src/XrmMockupShared/Plugin/PluginManager.cs:306-382 | outcome and stamped target equal `Decide`; the parent context changes only in its shared variables, per `SharedAfter` |
| Triggers.NewTrigger | src/XrmMockupShared/Plugin/PluginManager.cs:291-304 | the trigger keeps the given operation, stage, handler and metadata; it takes its entity name from the subscription, its mode and order from the deployment and its images from the configuration; its filter set is `FilterSet` of the filter string, empty exactly when that is null or white space |
| StepProperties.AttachImagesErrors | src/XrmMockupShared/Plugin/PluginManager.cs:359-368 | attaching images fails only with a null dereference or a duplicate image name |
| StepProperties.AttachImageStep | src/XrmMockupShared/Plugin/PluginManager.cs:360-367 | one image spec changes only the image maps, adds its name to each map whose rule it meets with the image scoped to its columns, and keeps the images already there |
| StepProperties.AttachImagesFrame | src/XrmMockupShared/Plugin/PluginManager.cs:359-368 | a successful image pass changes only the two image maps and keeps the images already present |
| StepProperties.AttachImagesPostKeys | src/XrmMockupShared/Plugin/PluginManager.cs:359-363 | the post-image map gains exactly the names of the specs that take the post-image |
| StepProperties.AttachImagesPreKeys | src/XrmMockupShared/Plugin/PluginManager.cs:359-367 | the pre-image map gains exactly the names of the specs that take the pre-image |
| StepProperties.AttachImagesValues | src/XrmMockupShared/Plugin/PluginManager.cs:359-368 | every spec that takes an image finds that image, scoped to its columns, under its name |
| StepProperties.ImageAttachmentRules | src/XrmMockupShared/Plugin/PluginManager.cs:362-367 | a post-image is attached iff there is one, the stage is PostOperation and the type is PostImage or Both; a pre-image is attached iff there is one and the type is PreImage or Both; Both without a pre-image, and only that, is a null dereference |
| StepProperties.GuardOrder | src/XrmMockupShared/Plugin/PluginManager.cs:316-326 | another entity's step is skipped and leaves the target alone; past the name check, depth above 8 throws the infinite-loop fault; at depth 8 or less that fault never occurs; the plugin runs only when the name matches and the depth is at most 8 |
| StepProperties.TargetOnlyStamped | src/XrmMockupShared/Plugin/PluginManager.cs:316-332 | the only change a step makes to the caller's target is the primary-id stamp; the shadow merge works on a copy |
| StepProperties.FilterDecides | src/XrmMockupShared/Plugin/PluginManager.cs:334-343 | a filtered Update step that passed the earlier guards is skipped iff no attribute of the examined record is filtered |
| StepProperties.AssociationScope | src/XrmMockupShared/Plugin/PluginManager.cs:345-348 | an entity-specific Associate/Disassociate step that passes the name and depth guards throws the scope error; a step for every entity never does |
| StepProperties.ChildContextRules | src/XrmMockupShared/Plugin/PluginManager.cs:350-368 | the plugin's context has the step's mode and stage, the target's name, the target's id only when the parent had none, the parent's depth and shared variables, and exactly the declared image names added |
| Registries.Added | src/XrmMockupShared/Plugin/PluginManager.cs:225-233 | the bucket exists afterwards and has the trigger as its new last element (one longer); every other bucket, and whether it exists, is unchanged |
| Registries.Registry.constructor | src/XrmMockupShared/Plugin/PluginManager.cs:101-103 | a new registry is empty |
| Registries.InsertByOrder | src/XrmMockupShared/Plugin/PluginManager.cs:244 | inserting by `CompareTo` into a sorted list gives a sorted list with one more copy of the trigger |
| Registries.SortByOrder | src/XrmMockupShared/Plugin/PluginManager.cs:244 | `List.Sort()` gives a list in non-decreasing execution order that is a permutation of the input |
| Registries.SortStages | src/XrmMockupShared/Plugin/PluginManager.cs:242-245 | every stage list of one operation is sorted and a permutation of itself, and the stage keys are unchanged |
| Registries.AddAllBucket | src/XrmMockupShared/Plugin/PluginManager.cs:164-174 | adding a list of triggers appends to each bucket exactly the triggers for it, in order, after what it held |
| Registries.AddAllKeepsBuckets | src/XrmMockupShared/Plugin/PluginManager.cs:225-233 | adding triggers never removes a bucket |
| Registries.AppendAfterSortMayUnsort | src/XrmMockupShared/Plugin/PluginManager.cs:192-199 | additional registrations are appended without sorting: a sorted bucket stays sorted after the append iff it was empty or its last order is no greater than the new trigger's |
| Plugins.FirstMatching | src/XrmMockupShared/Plugin/PluginManager.cs:147 | no registration is found iff none has the assembly name; otherwise the result is the first registration with that name |
| Plugins.StepConfigsOf | src/XrmMockupShared/Plugin/PluginManager.cs:132-155 | declared configurations are used as they are; failure happens iff there are none and no platform registration matches, and the error is the DAXIF "Unknown plugin" message; otherwise the single configuration takes the first matching registration's assembly name, stage, message and entity, its mode, name, rank, filter and isolation mode, with deployment 0, the empty-guid user context and no images |
| Plugins.AllRegistrationsStep | src/XrmMockupShared/Plugin/PluginManager.cs:111-120 | registering from type i on is type i's triggers followed by the rest, or type i's error |
| Plugins.RegistrationOutcome | src/XrmMockupShared/Plugin/PluginManager.cs:109-151 | registration fails iff some type fails, and the error names the first failing type; on success every trigger runs one of the given types |
| Plugins.SystemTriggersStep | src/XrmMockupShared/Plugin/PluginManager.cs:207-221 | system plugin k registers the accumulated configurations of plugins 0..k, each running plugin k |
| Plugins.SystemConfigsAccumulate | src/XrmMockupShared/Plugin/PluginManager.cs:205-221 | with two system plugins, three triggers are registered; the first plugin's configuration is registered twice, the second time running the second plugin |
| Plugins.AddAllAppend | src/XrmMockupShared/Plugin/PluginManager.cs:164-174 | registering a concatenation is registering one list and then the other |
| Plugins.RunPassAppend | src/XrmMockupShared/Plugin/PluginManager.cs:262-265 | a pass over the permanent bucket followed by one over the temporary bucket is a pass over their concatenation; the second does nothing if the first threw |
| Plugins.RanInListOrder | src/XrmMockupShared/Plugin/PluginManager.cs:263 | on a bucket sorted by execution order, the plugins are called in execution order |
| Plugins.RanFromList | src/XrmMockupShared/Plugin/PluginManager.cs:263 | the plugins called are steps of the bucket, each called at most as often as it occurs (the multiset of calls is within the bucket's) |
| Plugins.StampedTargetKeepsIdentity | src/XrmMockupShared/Plugin/PluginManager.cs:312-320 | the stamps of a pass never change the target's logical name or id |
| Plugins.DeepContextRunsNothing | src/XrmMockupShared/Plugin/PluginManager.cs:322-326 | above depth 8 no plugin runs and no shared variable changes; the pass throws the infinite-loop fault iff some step matches the target's entity |
| Plugins.RunBucket | src/XrmMockupShared/Plugin/PluginManager.cs:263 | the `ForEach` over a bucket gives exactly `RunPass`, and only the parent's shared variables change |
| Plugins.RunBuckets | src/XrmMockupShared/Plugin/PluginManager.cs:262-265 | the permanent then the temporary bucket give exactly `RunPass` over their concatenation |
| Plugins.ResetIdempotent | src/XrmMockupShared/Plugin/PluginManager.cs:177-181 | resetting twice is resetting once, and a reset keeps the permanent and system registries |
| Plugins.PluginManager.Empty | src/XrmMockupShared/Plugin/PluginManager.cs:101-103 | three fresh, distinct, empty registries, with nothing disabled |
| Plugins.PluginManager.Create | src/XrmMockupShared/Plugin/PluginManager.cs:99-107 | construction fails with the first registration error; otherwise the permanent registry holds the sorted registrations, and the temporary and system registries are empty |
| Plugins.PluginManager.RegisterPlugins | src/XrmMockupShared/Plugin/PluginManager.cs:109-123 | returns the first registration error; otherwise each bucket holds, sorted, the old contents plus every trigger of the given types |
| Plugins.PluginManager.RegisterPlugin | src/XrmMockupShared/Plugin/PluginManager.cs:125-175 | an unknown plugin leaves the registry unchanged and reports the error; otherwise all its triggers are appended in configuration order |
| Plugins.PluginManager.AddConfigs | src/XrmMockupShared/Plugin/PluginManager.cs:163-174 | one trigger per configuration is appended, in order |
| Plugins.PluginManager.RegisterSystemPlugins | src/XrmMockupShared/Plugin/PluginManager.cs:202-223 | the system registry holds, sorted, the triggers of the accumulating configuration list |
| Plugins.PluginManager.AddSystemConfigs | src/XrmMockupShared/Plugin/PluginManager.cs:205-221 | the nested system loop appends exactly `SystemTriggers` |
| Plugins.PluginManager.AddTrigger | src/XrmMockupShared/Plugin/PluginManager.cs:225-233 | the registry becomes `Added`: the bucket is created when missing, and the trigger is its new last element |
| Plugins.PluginManager.SortAllLists | src/XrmMockupShared/Plugin/PluginManager.cs:238-247 | every bucket is sorted by execution order and is a permutation of itself; no bucket is added or removed |
| Plugins.PluginManager.ResetPlugins | src/XrmMockupShared/Plugin/PluginManager.cs:177-181 | the temporary registry is a new empty one, nothing is disabled, and the permanent and system registries are the same objects; afterwards the active steps are exactly the permanent ones |
| Plugins.PluginManager.DisabelRegisteredPlugins | src/XrmMockupShared/Plugin/PluginManager.cs:183-186 | only the flag changes; while disabled, the active steps are exactly the temporary ones |
| Plugins.PluginManager.RegisterAdditionalPlugin | src/XrmMockupShared/Plugin/PluginManager.cs:188-200 | a type without declared configurations is an unknown plugin (the MockPlugin hint) and changes nothing; otherwise its triggers are appended, unsorted, to exactly the registry its scope names |
| Plugins.PluginManager.Trigger | src/XrmMockupShared/Plugin/PluginManager.cs:259-266 | the event is offered to the permanent steps unless disabled, then to the temporary ones, in list order, as `RunPass`; a missing bucket contributes nothing; only the parent's shared variables change |
| Plugins.PluginManager.TriggerSystem | src/XrmMockupShared/Plugin/PluginManager.cs:268-275 | the event is offered to the system bucket as `RunPass`, and a missing bucket is a no-op |
| Scenarios.UpdateOutsideFilterRunsOnlyUnfiltered | src/XrmMockupShared/Plugin/PluginManager.cs:334-343 | an update that does not touch the filtered attribute runs only the unfiltered step |
| Scenarios.UpdateOfFilteredAttributeRunsBoth | src/XrmMockupShared/Plugin/PluginManager.cs:334-343 | an update of the filtered attribute runs both steps, in order |
| Scenarios.ThrowingPluginStopsPass | src/XrmMockupShared/Plugin/PluginManager.cs:372-376 | a plugin that throws ends the pass; the later step does not run, and the shared variables are unchanged |
| Scenarios.OtherEntityIsSkipped | src/XrmMockupShared/Plugin/PluginManager.cs:316 | steps for another entity are skipped without effect |
| Scenarios.PostOperationWithoutImagesIsNullReference | src/XrmMockupShared/Plugin/PluginManager.cs:328-329 | at Update/PostOperation without images the first step dereferences the missing post-image, and nothing runs |
| Scenarios.ShadowAddedAttributeRunsFilteredStep | src/XrmMockupShared/Plugin/PluginManager.cs:328-343 | an attribute only the post-image holds is shadow-added, so the step filtered on it runs, followed by the unfiltered one |
| Scenarios.PreImageAttributeIsNotShadowed | src/XrmMockupShared/Plugin/PluginManager.cs:328-343 | an attribute the pre-image already holds is not shadow-added, so only the unfiltered step runs |
| Scenarios.BothImageAttachedAtPostOperation | src/XrmMockupShared/Plugin/PluginManager.cs:359-367 | an image of type Both at PostOperation gives the plugin both images, each with every column |
| Scenarios.BothImageWithoutPreImageThrows | src/XrmMockupShared/Plugin/PluginManager.cs:365-366 | an image of type Both without a pre-image is a null dereference, even with a post-image |

## Left out

- Plugin discovery by reflection is not modelled. This covers scanning each base type's assembly, the assignable/abstract/parameterless-constructor filter, and skipping a null base type. The plugin types arrive as a list of `PluginType` values.
- Parsing step configurations is not modelled. This covers the JSON round-trip of `PluginProcessingStepConfigs` and `Enum.Parse` of the operation name, which throws on an unknown name. A configuration carries an already parsed `EventOperation`.
- Instantiating a plugin, and the plugin's own code, are not modelled. A plugin is the `execute` parameter. Any exception it throws appears as `HandlerFault` with its message, already unwrapped from `TargetInvocationException`.
- A plugin's other effects are not modelled. Only the shared variables it returns flow back. Nested calls into the organisation service (`Core`) and recursive triggering at a greater depth are outside the core.
- The service provider, tracing and notification services handed to a plugin are left out; they are I/O.
- `CloneEntity` with metadata and a column set is not modelled. An image is a `Snapshot` that records the record it was taken from and the column set.
- `metadata.GetMetadata(name)?.PrimaryIdAttribute` is represented as a map from entity name to primary-id attribute.
- Plugins.PluginManager.RegisterPlugins: promises nothing about the registry after an error, because the error escapes the constructor and the half-built manager is discarded.
- Plugins.PluginManager.Create: states the system registry only for the empty system-plugin list that the source ships. `RegisterSystemPlugins` states the general case.
- Registries.SortByOrder: promises sorted and a permutation, not the exact order of equal keys. `List.Sort` is not stable, and the model sorts by insertion.
- `int.CompareTo` is modelled on unbounded integers. It does not overflow, so nothing about 32-bit width matters.
- The `ran` sequence in `Pass` is an observation the model adds, to state which plugins were called. The source returns nothing.
- Entity names and image names cannot be null in this model (`StepSubscription.logicalName`, `StepImage.name` are strings). In the source a null entity name is not "every entity": `null != ""` holds at lines 316 and 345, so such a step would be skipped or throw the scope error, and a null image name makes `Add` throw at lines 363 and 366.
- `PluginContext.Clone` is taken to copy every field the engine reads, depth, images and shared variables included, and `CloneEntity()` at line 330 to be an exact copy of the record. Neither helper is part of this model.
- `LowTrustSandBox`, the settings, argument and authentication helpers, and the sample plugins are not part of this model.

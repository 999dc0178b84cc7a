/** One registered plugin step (`PluginManager.PluginTrigger`): its
    filter parsing, its ordering, and the guard sequence of ExecuteIfMatch
    that decides whether the plugin runs, fails or is skipped for an event,
    together with the child context it builds. */
module Triggers {
  import opened Wrappers
  import opened Text
  import opened Xrm
  import opened Contexts

  /** The depth above which a dispatch is taken for an infinite loop. */
  const MaxDepth: int := 8

  /** The filtered-attribute set of a step: empty for a null or white-space
      filter string, otherwise the comma-separated pieces. */
  function FilterSet(filteredAttributes: Option<string>): (attrs: set<string>)
    ensures attrs == {} <==> IsNullOrWhiteSpace(filteredAttributes)
    ensures forall a :: a in attrs ==> ',' !in a
    ensures !IsNullOrWhiteSpace(filteredAttributes) ==>
              exists pieces :: && |pieces| >= 1
                               && Join(pieces, ',') == filteredAttributes.value
                               && (forall p :: p in pieces ==> ',' !in p)
                               && attrs == set p | p in pieces
  {
    if IsNullOrWhiteSpace(filteredAttributes) then {}
    else
      var pieces := Split(filteredAttributes.value, ',');
      SplitPiecesAvoidSeparator(filteredAttributes.value, ',');
      JoinSplit(filteredAttributes.value, ',');
      var r := set p | p in pieces;
      assert pieces[0] in r;
      assert Join(pieces, ',') == filteredAttributes.value;
      r
  }

  /** The column set of an image: every column when no attribute list is
      given, otherwise the comma-separated list, which joins back to the
      configured text. */
  function ImageColumns(attributes: Option<string>): (cols: ColumnSet)
    ensures cols.AllColumns? <==> attributes.None?
    ensures cols.Columns? ==> |cols.names| >= 1 && Join(cols.names, ',') == attributes.value
    ensures cols.Columns? ==> forall n :: n in cols.names ==> ',' !in n
  {
    match attributes
    case None => AllColumns
    case Some(text) =>
      JoinSplit(text, ',');
      SplitPiecesAvoidSeparator(text, ',');
      Columns(Split(text, ','))
  }

  /** The identifier of the event's target; `Guid.Empty` unless it is a
      record or a reference. */
  function TargetId(target: Target): (id: Guid)
    ensures target.EntityTarget? ==> id == target.entity.id
    ensures target.ReferenceTarget? ==> id == target.refId
    ensures target.RequestTarget? || target.OtherTarget? ==> id == EmptyGuid
  {
    match target
    case EntityTarget(e) => e.id
    case ReferenceTarget(_, id) => id
    case RequestTarget(_) => EmptyGuid
    case OtherTarget => EmptyGuid
  }

  /** The logical name of the event's target: a record's or reference's
      logical name, a request's name, or null. */
  function TargetName(target: Target): (name: Option<string>)
    ensures name.None? <==> target.OtherTarget?
    ensures target.EntityTarget? ==> name == Some(target.entity.logicalName)
    ensures target.ReferenceTarget? ==> name == Some(target.refName)
    ensures target.RequestTarget? ==> name == Some(target.requestName)
  {
    match target
    case EntityTarget(e) => Some(e.logicalName)
    case ReferenceTarget(n, _) => Some(n)
    case RequestTarget(n) => Some(n)
    case OtherTarget => None
  }

  /** Some attribute of the record is in the filter set. */
  predicate Intersects(attrs: Attributes, filter: set<string>)
  {
    exists k :: k in attrs && k in filter
  }

  /** The record a step examines on Update/PostOperation: a copy of the
      target with each post-image attribute that neither the pre-image nor
      the target holds added to it. The target's own attributes keep their
      values. */
  function ShadowMerged(entity: Entity, preImage: Option<Entity>, postImage: Entity): (r: Entity)
    ensures r.logicalName == entity.logicalName && r.id == entity.id
    ensures forall k :: k in r.attributes <==>
              k in entity.attributes
              || (k in postImage.attributes && (preImage.None? || k !in preImage.value.attributes))
    ensures forall k :: k in entity.attributes ==> r.attributes[k] == entity.attributes[k]
    ensures forall k :: k in r.attributes && k !in entity.attributes ==> r.attributes[k] == postImage.attributes[k]
  {
    var shadow := map k | k in postImage.attributes
                          && (preImage.None? || k !in preImage.value.attributes)
                          && k !in entity.attributes
                    :: postImage.attributes[k];
    entity.(attributes := entity.attributes + shadow)
  }

  /** The outcome of offering an event to one step. */
  datatype StepOutcome =
    | Skipped                                    // returned early, no plugin call
    | Rejected(error: Error)                     // threw before calling the plugin
    | Invoked(child: ContextView, reply: Result<map<string, Value>, string>)

  /** A step's outcome with the event target as the step leaves it (the
      primary-id stamp writes into the caller's record). */
  datatype Step = Step(stamped: Target, outcome: StepOutcome)

  /** The parent's shared variables after a step: the child's written back
      when the plugin returned normally, unchanged otherwise. */
  function SharedAfter(outcome: StepOutcome, parent: map<string, Value>): (r: map<string, Value>)
    ensures outcome.Invoked? && outcome.reply.Success? ==>
              && r.Keys == parent.Keys + outcome.reply.value.Keys
              && (forall k :: k in outcome.reply.value ==> r[k] == outcome.reply.value[k])
              && (forall k :: k in parent && k !in outcome.reply.value ==> r[k] == parent[k])
    ensures !(outcome.Invoked? && outcome.reply.Success?) ==> r == parent
  {
    if outcome.Invoked? && outcome.reply.Success? then Merged(parent, outcome.reply.value) else parent
  }

  /** A registered step. Its fields are set once, by NewTrigger. */
  datatype PluginTrigger = PluginTrigger(
    pluginExecute: HandlerId,
    entityName: string,
    operation: EventOperation,
    stage: ExecutionStage,
    mode: ExecutionMode,
    order: int,
    metadata: Metadata,
    attributes: set<string>,
    images: seq<StepImage>)
  {
    /** Orders steps by execution order alone, as `int.CompareTo` does. */
    function CompareTo(other: PluginTrigger): (r: int)
      ensures r == -1 || r == 0 || r == 1
      ensures r < 0 <==> order < other.order
      ensures r == 0 <==> order == other.order
    {
      if order < other.order then -1 else if order == other.order then 0 else 1
    }

    /** The step is for every entity, or for the target's. */
    predicate NameMatches(logicalName: Option<string>)
    {
      entityName == "" || Some(entityName) == logicalName
    }

    /** The target after the primary-id stamp: when the target is a record
        whose metadata names a primary-id attribute, that attribute is set to
        the record's id, whatever it held before. */
    function Stamp(target: Target): (r: Target)
      ensures !(target.EntityTarget? && target.entity.logicalName in metadata) ==> r == target
      ensures target.EntityTarget? && target.entity.logicalName in metadata ==>
                var e := target.entity;
                var pid := metadata[e.logicalName];
                && r.EntityTarget?
                && r.entity.logicalName == e.logicalName && r.entity.id == e.id
                && r.entity.attributes.Keys == e.attributes.Keys + {pid}
                && r.entity.attributes[pid] == GuidValue(e.id)
                && forall k :: k in e.attributes && k != pid ==> r.entity.attributes[k] == e.attributes[k]
    {
      if target.EntityTarget? && target.entity.logicalName in metadata then
        var e := target.entity;
        EntityTarget(e.(attributes := e.attributes[metadata[e.logicalName] := GuidValue(e.id)]))
      else target
    }

    /** The record the attribute filter looks at: on Update/PostOperation the
        shadow-merged copy (a null post-image, a target that is not a record,
        or a null pre-image met while scanning the post-image is a null
        dereference); otherwise the target record itself, if any. */
    function WorkingEntity(stamped: Target, preImage: Option<Entity>, postImage: Option<Entity>)
      : (r: Result<Option<Entity>, Error>)
      ensures r.Failure? ==> r.error == NullReference
      ensures r.Failure? <==>
                operation == Update && stage == PostOperation
                && (postImage.None? || !stamped.EntityTarget?
                    || (preImage.None? && |postImage.value.attributes| > 0))
      ensures r.Success? && r.value.Some? ==>
                && stamped.EntityTarget?
                && r.value.value.logicalName == stamped.entity.logicalName
                && stamped.entity.attributes.Keys <= r.value.value.attributes.Keys
      ensures r.Success? && operation == Update && stage == PostOperation ==>
                r.value == Some(ShadowMerged(stamped.entity, preImage, postImage.value))
      ensures !(operation == Update && stage == PostOperation) ==>
                r == Success(if stamped.EntityTarget? then Some(stamped.entity) else None)
    {
      if operation == Update && stage == PostOperation then
        if postImage.None? || !stamped.EntityTarget? then Failure(NullReference)
        else if preImage.None? && |postImage.value.attributes| > 0 then Failure(NullReference)
        else Success(Some(ShadowMerged(stamped.entity, preImage, postImage.value)))
      else if stamped.EntityTarget? then Success(Some(stamped.entity))
      else Success(None)
    }

    /** The child context before images: a copy of the parent with this
        step's mode and stage, the target's name, and the target's id when
        the parent had none. */
    function ChildContext(parent: ContextView, id: Guid, logicalName: Option<string>): ContextView
    {
      parent.(mode := mode, stage := stage,
              primaryEntityId := if parent.primaryEntityId == EmptyGuid then id else parent.primaryEntityId,
              primaryEntityName := logicalName)
    }

    /** This image spec takes the post-image. */
    predicate TakesPostImage(image: StepImage, postImage: Option<Entity>)
    {
      postImage.Some? && stage == PostOperation
      && (image.imageType == PostImage || image.imageType == Both)
    }

    /** This image spec takes the pre-image. The condition reads
        `(pre-image present and type PreImage) or type Both`. */
    predicate TakesPreImage(image: StepImage, preImage: Option<Entity>)
    {
      (preImage.Some? && image.imageType == PreImage) || image.imageType == Both
    }

    /** Adds one declared image to the context, post-image first. Adding a
        name that is already there throws; so does cloning a null pre-image. */
    function AttachImage(image: StepImage, preImage: Option<Entity>, postImage: Option<Entity>, c: ContextView)
      : Result<ContextView, Error>
    {
      var cols := ImageColumns(image.attributes);
      var afterPost :=
        if TakesPostImage(image, postImage) then
          if image.name in c.postEntityImages then Failure(DuplicateImageName(image.name))
          else Success(c.(postEntityImages := c.postEntityImages[image.name := Snapshot(postImage.value, cols)]))
        else Success(c);
      if afterPost.Failure? then afterPost
      else
        var c1 := afterPost.value;
        if TakesPreImage(image, preImage) then
          if preImage.None? then Failure(NullReference)
          else if image.name in c1.preEntityImages then Failure(DuplicateImageName(image.name))
          else Success(c1.(preEntityImages := c1.preEntityImages[image.name := Snapshot(preImage.value, cols)]))
        else Success(c1)
    }

    /** Adds the declared images in order, stopping at the first that throws. */
    function AttachImages(imgs: seq<StepImage>, preImage: Option<Entity>, postImage: Option<Entity>, c: ContextView)
      : Result<ContextView, Error>
      decreases |imgs|
    {
      if imgs == [] then Success(c)
      else
        match AttachImage(imgs[0], preImage, postImage, c)
        case Failure(e) => Failure(e)
        case Success(c1) => AttachImages(imgs[1..], preImage, postImage, c1)
    }

    /** The guards between the primary-id stamp and the child context, in
        source order: depth ceiling, shadow merge, attribute filter (Update
        only), Associate/Disassociate scope. Some outcome when a guard ends
        the step, None when the plugin is to be called. */
    function Screen(stamped: Target, preImage: Option<Entity>, postImage: Option<Entity>, depth: int)
      : (r: Option<StepOutcome>)
      ensures r.Some? ==> !r.value.Invoked?
    {
      if depth > MaxDepth then Some(Rejected(InfiniteLoopFault(InfiniteLoopMessage)))
      else
        match WorkingEntity(stamped, preImage, postImage)
        case Failure(e) => Some(Rejected(e))
        case Success(working) =>
          if operation == Update && attributes != {} && working.None? then
            Some(Rejected(NullReference))
          else if operation == Update && attributes != {} && !Intersects(working.value.attributes, attributes) then
            Some(Skipped)
          else if entityName != "" && (operation == Associate || operation == Disassociate) then
            Some(Rejected(EntityScopedAssociation(operation)))
          else None
    }

    /** Builds the child context, attaches the images and calls the plugin. */
    function Invoke(target: Target, preImage: Option<Entity>, postImage: Option<Entity>,
                    parent: ContextView, execute: Handler): (r: StepOutcome)
      ensures r != Skipped
    {
      match AttachImages(images, preImage, postImage, ChildContext(parent, TargetId(target), TargetName(target)))
      case Failure(e) => Rejected(e)
      case Success(child) => Invoked(child, execute(pluginExecute, child))
    }

    /** What offering an event to this step does: skipped when the entity
        name does not match; otherwise the target is stamped, the guards run,
        and the plugin is called if none of them ends the step. */
    function Decide(target: Target, preImage: Option<Entity>, postImage: Option<Entity>,
                    parent: ContextView, execute: Handler): Step
    {
      if !NameMatches(TargetName(target)) then Step(target, Skipped)
      else
        var stamped := Stamp(target);
        match Screen(stamped, preImage, postImage, parent.depth)
        case Some(early) => Step(stamped, early)
        case None => Step(stamped, Invoke(target, preImage, postImage, parent, execute))
    }

    /** The `foundAttr` loop: whether some attribute of the record is in the
        filter set. */
    method HasFilteredAttribute(attrs: Attributes) returns (found: bool)
      ensures found <==> Intersects(attrs, attributes)
    {
      found := false;
      var todo := attrs.Keys;
      while todo != {}
        invariant todo <= attrs.Keys
        invariant forall k :: k in attrs && k !in todo ==> k !in attributes
        decreases todo
      {
        var key :| key in todo;
        if key in attributes {
          found := true;
          return;
        }
        todo := todo - {key};
      }
    }

    /** The image loop: adds each declared image to the child context in
        order, stopping at the first that throws. */
    method AddImages(thisPluginContext: PluginContext, preImage: Option<Entity>, postImage: Option<Entity>)
      returns (error: Option<Error>)
      modifies thisPluginContext
      ensures error.None? ==>
                AttachImages(images, preImage, postImage, old(thisPluginContext.View())) == Success(thisPluginContext.View())
      ensures error.Some? ==>
                AttachImages(images, preImage, postImage, old(thisPluginContext.View())) == Failure(error.value)
    {
      var child0 := thisPluginContext.View();
      var i := 0;
      while i < |images|
        invariant 0 <= i <= |images|
        invariant AttachImages(images, preImage, postImage, child0)
                  == AttachImages(images[i..], preImage, postImage, thisPluginContext.View())
      {
        var image := images[i];
        var kind := image.imageType;
        var cols := ImageColumns(image.attributes);
        var before := thisPluginContext.View();
        if postImage.Some? && stage == PostOperation && (kind == PostImage || kind == Both) {
          if image.name in thisPluginContext.postEntityImages {
            return Some(DuplicateImageName(image.name));
          }
          thisPluginContext.postEntityImages :=
            thisPluginContext.postEntityImages[image.name := Snapshot(postImage.value, cols)];
        }
        if (preImage.Some? && kind == PreImage) || kind == Both {
          if preImage.None? {
            return Some(NullReference);
          }
          if image.name in thisPluginContext.preEntityImages {
            return Some(DuplicateImageName(image.name));
          }
          thisPluginContext.preEntityImages :=
            thisPluginContext.preEntityImages[image.name := Snapshot(preImage.value, cols)];
        }
        assert AttachImage(image, preImage, postImage, before) == Success(thisPluginContext.View());
        assert images[i..][1..] == images[i + 1..];
        i := i + 1;
      }
      return None;
    }

    /** The guard sequence of ExecuteIfMatch after the stamp, with the
        `foundAttr` loop for the attribute filter. */
    method ScreenStep(entity: Target, preImage: Option<Entity>, postImage: Option<Entity>, depth: int)
      returns (early: Option<StepOutcome>)
      ensures early == Screen(entity, preImage, postImage, depth)
    {
      if depth > MaxDepth {
        return Some(Rejected(InfiniteLoopFault(InfiniteLoopMessage)));
      }

      var working: Option<Entity> := if entity.EntityTarget? then Some(entity.entity) else None;
      if operation == Update && stage == PostOperation {
        if postImage.None? || working.None? || (preImage.None? && |postImage.value.attributes| > 0) {
          return Some(Rejected(NullReference));
        }
        working := Some(ShadowMerged(working.value, preImage, postImage.value));
      }

      if operation == Update && attributes != {} {
        if working.None? {
          return Some(Rejected(NullReference));
        }
        var foundAttr := HasFilteredAttribute(working.value.attributes);
        if !foundAttr {
          return Some(Skipped);
        }
      }

      if entityName != "" && (operation == Associate || operation == Disassociate) {
        return Some(Rejected(EntityScopedAssociation(operation)));
      }
      return None;
    }

    /** Creates the child context, attaches the images, calls the plugin and
        writes the child's shared variables back into the parent. */
    method InvokeStep(entity: Target, preImage: Option<Entity>, postImage: Option<Entity>,
                      pluginContext: PluginContext, execute: Handler)
      returns (outcome: StepOutcome)
      modifies pluginContext
      ensures outcome == Invoke(entity, preImage, postImage, old(pluginContext.View()), execute)
      ensures pluginContext.View() ==
                old(pluginContext.View()).(sharedVariables := SharedAfter(outcome, old(pluginContext.sharedVariables)))
    {
      var guid := TargetId(entity);
      var logicalName := TargetName(entity);
      var thisPluginContext := pluginContext.Clone();
      thisPluginContext.mode := mode;
      thisPluginContext.stage := stage;
      if thisPluginContext.primaryEntityId == EmptyGuid {
        thisPluginContext.primaryEntityId := guid;
      }
      thisPluginContext.primaryEntityName := logicalName;
      assert thisPluginContext.View() == ChildContext(old(pluginContext.View()), guid, logicalName);

      var imageError := AddImages(thisPluginContext, preImage, postImage);
      if imageError.Some? {
        return Rejected(imageError.value);
      }

      var child := thisPluginContext.View();
      var reply := execute(pluginExecute, child);
      outcome := Invoked(child, reply);
      if reply.Success? {
        thisPluginContext.sharedVariables := reply.value;
        pluginContext.MergeSharedVariables(thisPluginContext.sharedVariables);
      }
    }

    /** Offers an event to this step: entity-name check, primary-id stamp,
        guards, then the plugin call. Returns the outcome and the target as
        the step leaves it. */
    method ExecuteIfMatch(entityObject: Target, preImage: Option<Entity>, postImage: Option<Entity>,
                          pluginContext: PluginContext, execute: Handler)
      returns (outcome: StepOutcome, entity: Target)
      modifies pluginContext
      ensures Step(entity, outcome) == Decide(entityObject, preImage, postImage, old(pluginContext.View()), execute)
      ensures pluginContext.View() ==
                old(pluginContext.View()).(sharedVariables := SharedAfter(outcome, old(pluginContext.sharedVariables)))
    {
      var logicalName := TargetName(entityObject);
      entity := entityObject;
      if entityName != "" && Some(entityName) != logicalName {
        return Skipped, entity;
      }

      entity := Stamp(entity);

      var early := ScreenStep(entity, preImage, postImage, pluginContext.depth);
      if early.Some? {
        return early.value, entity;
      }
      outcome := InvokeStep(entityObject, preImage, postImage, pluginContext, execute);
    }
  }

  /** `new PluginTrigger(operation, stage, pluginExecute, stepConfig, metadata)`:
      takes the entity name, mode, order and images from the configuration and
      parses the filter string into the filter set. */
  function NewTrigger(operation: EventOperation, stage: ExecutionStage, pluginExecute: HandlerId,
                      stepConfig: StepConfig, metadata: Metadata): (t: PluginTrigger)
    ensures t.operation == operation && t.stage == stage && t.pluginExecute == pluginExecute
    ensures t.entityName == stepConfig.subscription.logicalName
    ensures t.mode == stepConfig.deployment.executionMode && t.order == stepConfig.deployment.executionOrder
    ensures t.images == stepConfig.images && t.metadata == metadata
    ensures t.attributes == FilterSet(stepConfig.deployment.filteredAttributes)
    ensures t.attributes == {} <==> IsNullOrWhiteSpace(stepConfig.deployment.filteredAttributes)
  {
    PluginTrigger(pluginExecute, stepConfig.subscription.logicalName, operation, stage,
                  stepConfig.deployment.executionMode, stepConfig.deployment.executionOrder,
                  metadata, FilterSet(stepConfig.deployment.filteredAttributes), stepConfig.images)
  }
}

/** What ExecuteIfMatch promises, stated over its specification
    `PluginTrigger.Decide`: the order of the guards, the attribute filter,
    the Associate/Disassociate scope rule, the child context and the images. */
module StepProperties {
  import opened Wrappers
  import opened Xrm
  import opened Contexts
  import opened Triggers

  /** Attaching images only ever fails with a null dereference or a
      duplicate image name. */
  lemma {:induction false} AttachImagesErrors(t: PluginTrigger, imgs: seq<StepImage>,
                                              preImage: Option<Entity>, postImage: Option<Entity>, c: ContextView)
    ensures var r := t.AttachImages(imgs, preImage, postImage, c);
            r.Failure? ==> r.error == NullReference || r.error.DuplicateImageName?
    decreases |imgs|
  {
    if imgs != [] {
      var first := t.AttachImage(imgs[0], preImage, postImage, c);
      if first.Success? {
        AttachImagesErrors(t, imgs[1..], preImage, postImage, first.value);
      }
    }
  }

  /** One image spec on success: only the image maps change, the name is
      added to each map whose rule the spec meets, with the image scoped to
      the spec's columns, and images already present are kept. */
  lemma AttachImageStep(t: PluginTrigger, image: StepImage,
                        preImage: Option<Entity>, postImage: Option<Entity>, c: ContextView)
    requires t.AttachImage(image, preImage, postImage, c).Success?
    ensures var r := t.AttachImage(image, preImage, postImage, c).value;
            && r == c.(preEntityImages := r.preEntityImages, postEntityImages := r.postEntityImages)
            && r.postEntityImages.Keys
               == c.postEntityImages.Keys + (if t.TakesPostImage(image, postImage) then {image.name} else {})
            && r.preEntityImages.Keys
               == c.preEntityImages.Keys + (if t.TakesPreImage(image, preImage) then {image.name} else {})
            && (forall n :: n in c.postEntityImages ==> r.postEntityImages[n] == c.postEntityImages[n])
            && (forall n :: n in c.preEntityImages ==> r.preEntityImages[n] == c.preEntityImages[n])
            && (t.TakesPostImage(image, postImage) ==>
                  r.postEntityImages[image.name] == Snapshot(postImage.value, ImageColumns(image.attributes)))
            && (t.TakesPreImage(image, preImage) ==>
                  preImage.Some? && r.preEntityImages[image.name] == Snapshot(preImage.value, ImageColumns(image.attributes)))
  {
  }

  /** The names of the specs in `imgs` that take the post-image. */
  function PostImageNames(t: PluginTrigger, imgs: seq<StepImage>, postImage: Option<Entity>): (names: set<string>)
  {
    set im | im in imgs && t.TakesPostImage(im, postImage) :: im.name
  }

  /** The names of the specs in `imgs` that take the pre-image. */
  function PreImageNames(t: PluginTrigger, imgs: seq<StepImage>, preImage: Option<Entity>): (names: set<string>)
  {
    set im | im in imgs && t.TakesPreImage(im, preImage) :: im.name
  }

  lemma NamesOfCons(t: PluginTrigger, imgs: seq<StepImage>, preImage: Option<Entity>, postImage: Option<Entity>)
    requires imgs != []
    ensures PostImageNames(t, imgs, postImage)
            == PostImageNames(t, imgs[1..], postImage)
               + (if t.TakesPostImage(imgs[0], postImage) then {imgs[0].name} else {})
    ensures PreImageNames(t, imgs, preImage)
            == PreImageNames(t, imgs[1..], preImage)
               + (if t.TakesPreImage(imgs[0], preImage) then {imgs[0].name} else {})
  {
    assert forall im :: im in imgs <==> im == imgs[0] || im in imgs[1..];
  }

  /** A successful image pass changes only the two image maps, and images
      already present are kept. */
  lemma {:induction false} AttachImagesFrame(t: PluginTrigger, imgs: seq<StepImage>,
                                             preImage: Option<Entity>, postImage: Option<Entity>, c: ContextView)
    requires t.AttachImages(imgs, preImage, postImage, c).Success?
    ensures var r := t.AttachImages(imgs, preImage, postImage, c).value;
            && r == c.(preEntityImages := r.preEntityImages, postEntityImages := r.postEntityImages)
            && c.postEntityImages.Keys <= r.postEntityImages.Keys
            && c.preEntityImages.Keys <= r.preEntityImages.Keys
            && (forall n :: n in c.postEntityImages ==> r.postEntityImages[n] == c.postEntityImages[n])
            && (forall n :: n in c.preEntityImages ==> r.preEntityImages[n] == c.preEntityImages[n])
    decreases |imgs|
  {
    if imgs != [] {
      AttachImageStep(t, imgs[0], preImage, postImage, c);
      var c1 := t.AttachImage(imgs[0], preImage, postImage, c).value;
      AttachImagesFrame(t, imgs[1..], preImage, postImage, c1);
    }
  }

  /** The post-image map gains exactly the names of the specs that take the
      post-image. */
  lemma {:induction false} AttachImagesPostKeys(t: PluginTrigger, imgs: seq<StepImage>,
                                                preImage: Option<Entity>, postImage: Option<Entity>, c: ContextView)
    requires t.AttachImages(imgs, preImage, postImage, c).Success?
    ensures t.AttachImages(imgs, preImage, postImage, c).value.postEntityImages.Keys
            == c.postEntityImages.Keys + PostImageNames(t, imgs, postImage)
    decreases |imgs|
  {
    if imgs != [] {
      AttachImageStep(t, imgs[0], preImage, postImage, c);
      var c1 := t.AttachImage(imgs[0], preImage, postImage, c).value;
      AttachImagesPostKeys(t, imgs[1..], preImage, postImage, c1);
      NamesOfCons(t, imgs, preImage, postImage);
    }
  }

  /** The pre-image map gains exactly the names of the specs that take the
      pre-image. */
  lemma {:induction false} AttachImagesPreKeys(t: PluginTrigger, imgs: seq<StepImage>,
                                               preImage: Option<Entity>, postImage: Option<Entity>, c: ContextView)
    requires t.AttachImages(imgs, preImage, postImage, c).Success?
    ensures t.AttachImages(imgs, preImage, postImage, c).value.preEntityImages.Keys
            == c.preEntityImages.Keys + PreImageNames(t, imgs, preImage)
    decreases |imgs|
  {
    if imgs != [] {
      AttachImageStep(t, imgs[0], preImage, postImage, c);
      var c1 := t.AttachImage(imgs[0], preImage, postImage, c).value;
      AttachImagesPreKeys(t, imgs[1..], preImage, postImage, c1);
      NamesOfCons(t, imgs, preImage, postImage);
    }
  }

  /** After a successful image pass, every spec that takes the post-image has
      the post-image under its name, scoped to its columns, and likewise for
      the pre-image. */
  lemma {:induction false} AttachImagesValues(t: PluginTrigger, imgs: seq<StepImage>,
                                              preImage: Option<Entity>, postImage: Option<Entity>, c: ContextView)
    requires t.AttachImages(imgs, preImage, postImage, c).Success?
    ensures var r := t.AttachImages(imgs, preImage, postImage, c).value;
            && (forall im :: im in imgs && t.TakesPostImage(im, postImage) ==>
                  && im.name in r.postEntityImages
                  && r.postEntityImages[im.name] == Snapshot(postImage.value, ImageColumns(im.attributes)))
            && (forall im :: im in imgs && t.TakesPreImage(im, preImage) ==>
                  && preImage.Some? && im.name in r.preEntityImages
                  && r.preEntityImages[im.name] == Snapshot(preImage.value, ImageColumns(im.attributes)))
    decreases |imgs|
  {
    if imgs != [] {
      AttachImageStep(t, imgs[0], preImage, postImage, c);
      var c1 := t.AttachImage(imgs[0], preImage, postImage, c).value;
      AttachImagesValues(t, imgs[1..], preImage, postImage, c1);
      AttachImagesFrame(t, imgs[1..], preImage, postImage, c1);
      assert forall im :: im in imgs ==> im == imgs[0] || im in imgs[1..];
    }
  }

  /** The image rules for one spec on a context that does not yet hold its
      name: a post-image is attached exactly when a post-image exists, the
      stage is PostOperation and the type is PostImage or Both; a pre-image
      exactly when a pre-image exists and the type is PreImage or Both; and a
      Both spec without a pre-image is a null dereference. */
  lemma ImageAttachmentRules(t: PluginTrigger, image: StepImage,
                             preImage: Option<Entity>, postImage: Option<Entity>, c: ContextView)
    requires image.name !in c.preEntityImages && image.name !in c.postEntityImages
    ensures var r := t.AttachImage(image, preImage, postImage, c);
            && (r.Failure? <==> image.imageType == Both && preImage.None?)
            && (r.Failure? ==> r.error == NullReference)
            && (r.Success? ==>
                  && (image.name in r.value.postEntityImages <==>
                        postImage.Some? && t.stage == PostOperation
                        && (image.imageType == PostImage || image.imageType == Both))
                  && (image.name in r.value.preEntityImages <==>
                        preImage.Some? && (image.imageType == PreImage || image.imageType == Both)))
  {
  }

  /** The guards run in source order. A step for another entity is skipped
      and leaves the target alone. Past the name check, a depth above 8 throws
      the infinite-loop fault before the plugin can run; at depth 8 or less
      that fault is never raised. The plugin runs only when the name matches
      and the depth is at most 8. */
  lemma GuardOrder(t: PluginTrigger, target: Target, preImage: Option<Entity>, postImage: Option<Entity>,
                   parent: ContextView, execute: Handler)
    ensures var s := t.Decide(target, preImage, postImage, parent, execute);
            && (!t.NameMatches(TargetName(target)) ==> s == Step(target, Skipped))
            && (t.NameMatches(TargetName(target)) && parent.depth > MaxDepth ==>
                  s.outcome == Rejected(InfiniteLoopFault(InfiniteLoopMessage)))
            && (parent.depth <= MaxDepth ==> !(s.outcome.Rejected? && s.outcome.error.InfiniteLoopFault?))
            && (s.outcome.Invoked? ==> t.NameMatches(TargetName(target)) && parent.depth <= MaxDepth)
  {
    var c := t.ChildContext(parent, TargetId(target), TargetName(target));
    AttachImagesErrors(t, t.images, preImage, postImage, c);
  }

  /** Only the primary-id stamp reaches the caller's target: the shadow merge
      works on a copy. */
  lemma TargetOnlyStamped(t: PluginTrigger, target: Target, preImage: Option<Entity>, postImage: Option<Entity>,
                          parent: ContextView, execute: Handler)
    ensures t.Decide(target, preImage, postImage, parent, execute).stamped
            == if t.NameMatches(TargetName(target)) then t.Stamp(target) else target
  {
  }

  /** On Update, a step with a non-empty filter that got past the earlier
      guards is skipped exactly when no attribute of the record it examines
      is in its filter set. */
  lemma FilterDecides(t: PluginTrigger, target: Target, preImage: Option<Entity>, postImage: Option<Entity>,
                      parent: ContextView, execute: Handler, working: Entity)
    requires t.operation == Update && t.attributes != {}
    requires t.NameMatches(TargetName(target)) && parent.depth <= MaxDepth
    requires t.WorkingEntity(t.Stamp(target), preImage, postImage) == Success(Some(working))
    ensures t.Decide(target, preImage, postImage, parent, execute).outcome == Skipped
            <==> !Intersects(working.attributes, t.attributes)
  {
  }

  /** A step registered for a specific entity on Associate or Disassociate
      that passes the name and depth guards throws the scope error; a step for
      every entity never does. */
  lemma AssociationScope(t: PluginTrigger, target: Target, preImage: Option<Entity>, postImage: Option<Entity>,
                         parent: ContextView, execute: Handler)
    ensures var s := t.Decide(target, preImage, postImage, parent, execute);
            && (t.entityName != "" && t.NameMatches(TargetName(target)) && parent.depth <= MaxDepth
                && (t.operation == Associate || t.operation == Disassociate) ==>
                  s.outcome == Rejected(EntityScopedAssociation(t.operation)))
            && (t.entityName == "" ==> !(s.outcome.Rejected? && s.outcome.error.EntityScopedAssociation?))
  {
    var c := t.ChildContext(parent, TargetId(target), TargetName(target));
    AttachImagesErrors(t, t.images, preImage, postImage, c);
  }

  /** The child context a plugin receives: the step's mode and stage, the
      target's logical name, the target's id only when the parent had none,
      the parent's depth and shared variables, and the declared images. */
  lemma ChildContextRules(t: PluginTrigger, target: Target, preImage: Option<Entity>, postImage: Option<Entity>,
                          parent: ContextView, execute: Handler)
    requires t.Decide(target, preImage, postImage, parent, execute).outcome.Invoked?
    ensures var child := t.Decide(target, preImage, postImage, parent, execute).outcome.child;
            && child.mode == t.mode && child.stage == t.stage
            && child.primaryEntityName == TargetName(target)
            && child.primaryEntityId
               == (if parent.primaryEntityId == EmptyGuid then TargetId(target) else parent.primaryEntityId)
            && child.depth == parent.depth
            && child.sharedVariables == parent.sharedVariables
            && child.postEntityImages.Keys == parent.postEntityImages.Keys + PostImageNames(t, t.images, postImage)
            && child.preEntityImages.Keys == parent.preEntityImages.Keys + PreImageNames(t, t.images, preImage)
  {
    var c := t.ChildContext(parent, TargetId(target), TargetName(target));
    AttachImagesFrame(t, t.images, preImage, postImage, c);
    AttachImagesPostKeys(t, t.images, preImage, postImage, c);
    AttachImagesPreKeys(t, t.images, preImage, postImage, c);
  }
}

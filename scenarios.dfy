/** Dispatch of concrete events to two steps on account Update: A (order 1,
    filtered on emailaddress1) and B (order 2, no filter), first registered
    at PreOperation, then at PostOperation where B also takes an image of
    type Both. */
module Scenarios {
  import opened Wrappers
  import opened Xrm
  import opened Contexts
  import opened Triggers
  import opened Plugins

  const StepA: PluginTrigger :=
    PluginTrigger("A", "account", Update, PreOperation, Synchronous, 1, map[], {"emailaddress1"}, [])
  const StepB: PluginTrigger :=
    PluginTrigger("B", "account", Update, PreOperation, Synchronous, 2, map[], {}, [])

  /** A context at depth 1 with no images or shared variables. */
  const Parent: ContextView :=
    ContextView(1, Synchronous, PreOperation, EmptyGuid, Some("account"), map[], map[], map[])

  /** Every plugin returns normally without shared variables. */
  function Quiet(h: HandlerId, c: ContextView): Result<map<string, Value>, string>
  {
    Success(map[])
  }

  /** Plugin A throws; every other plugin returns normally. */
  function FailingA(h: HandlerId, c: ContextView): Result<map<string, Value>, string>
  {
    if h == "A" then Failure("A failed") else Success(map[])
  }

  /** An update that does not touch the filtered attribute runs only the
      unfiltered step. */
  lemma UpdateOutsideFilterRunsOnlyUnfiltered()
    ensures var target := EntityTarget(Entity("account", 7, map["name" := Data("Contoso")]));
            var p := RunPass([StepA, StepB], target, Parent, OfferEvent(None, None, Quiet));
            p.error.None? && p.ran == [StepB]
  {
    var target := EntityTarget(Entity("account", 7, map["name" := Data("Contoso")]));
    var offer := OfferEvent(None, None, Quiet);
    assert !Intersects(target.entity.attributes, StepA.attributes);
    var first := offer(StepA, target, Parent);
    assert first == Step(target, Skipped);
    assert [StepA, StepB][1..] == [StepB] && [StepB][1..] == [];
    assert RunPass([StepA, StepB], target, Parent, offer) == RunPass([StepB], target, Parent, offer);
    var second := offer(StepB, target, Parent);
    assert second.stamped == target && second.outcome.Invoked? && second.outcome.reply == Success(map[]);
    var rest := RunPass([], target, Parent.(sharedVariables := Merged(map[], map[])), offer);
    assert RunPass([StepB], target, Parent, offer) == rest.(ran := [StepB] + rest.ran);
  }

  /** An update of the filtered attribute runs both steps, in order. */
  lemma UpdateOfFilteredAttributeRunsBoth()
    ensures var target := EntityTarget(Entity("account", 7, map["emailaddress1" := Data("a@b.c")]));
            var p := RunPass([StepA, StepB], target, Parent, OfferEvent(None, None, Quiet));
            p.error.None? && p.ran == [StepA, StepB]
  {
    var target := EntityTarget(Entity("account", 7, map["emailaddress1" := Data("a@b.c")]));
    var offer := OfferEvent(None, None, Quiet);
    assert "emailaddress1" in target.entity.attributes && "emailaddress1" in StepA.attributes;
    var first := offer(StepA, target, Parent);
    assert first.stamped == target && first.outcome.Invoked? && first.outcome.reply == Success(map[]);
    assert [StepA, StepB][1..] == [StepB] && [StepB][1..] == [];
    assert Parent.(sharedVariables := Merged(map[], map[])) == Parent;
    var after := RunPass([StepB], target, Parent, offer);
    assert RunPass([StepA, StepB], target, Parent, offer) == after.(ran := [StepA] + after.ran);
    var second := offer(StepB, target, Parent);
    assert second.stamped == target && second.outcome.Invoked? && second.outcome.reply == Success(map[]);
    var rest := RunPass([], target, Parent, offer);
    assert after == rest.(ran := [StepB] + rest.ran);
  }

  /** A plugin that throws ends the pass: the later step is not run and the
      plugin's exception is what the caller sees. */
  lemma ThrowingPluginStopsPass()
    ensures var target := EntityTarget(Entity("account", 7, map["emailaddress1" := Data("a@b.c")]));
            var p := RunPass([StepA, StepB], target, Parent, OfferEvent(None, None, FailingA));
            p.error == Some(HandlerFault("A failed")) && p.ran == [StepA] && p.shared == Parent.sharedVariables
  {
    var target := EntityTarget(Entity("account", 7, map["emailaddress1" := Data("a@b.c")]));
    var offer := OfferEvent(None, None, FailingA);
    assert "emailaddress1" in target.entity.attributes && "emailaddress1" in StepA.attributes;
    assert offer(StepA, target, Parent).outcome.reply == Failure("A failed");
  }

  /** A step for another entity is skipped without effect. */
  lemma OtherEntityIsSkipped()
    ensures var target := EntityTarget(Entity("contact", 7, map["emailaddress1" := Data("a@b.c")]));
            RunPass([StepA, StepB], target, Parent, OfferEvent(None, None, Quiet))
            == Pass(None, target, Parent.sharedVariables, [])
  {
    var target := EntityTarget(Entity("contact", 7, map["emailaddress1" := Data("a@b.c")]));
    var offer := OfferEvent(None, None, Quiet);
    assert [StepA, StepB][1..] == [StepB] && [StepB][1..] == [];
    assert offer(StepA, target, Parent) == Step(target, Skipped);
    assert offer(StepB, target, Parent) == Step(target, Skipped);
    assert RunPass([StepA, StepB], target, Parent, offer) == RunPass([StepB], target, Parent, offer);
    assert RunPass([StepB], target, Parent, offer) == RunPass([], target, Parent, offer);
  }

  /* PostOperation, where the filter examines the shadow-merged record. */

  const PostA: PluginTrigger :=
    PluginTrigger("A", "account", Update, PostOperation, Synchronous, 1, map[], {"emailaddress1"}, [])
  const PostB: PluginTrigger :=
    PluginTrigger("B", "account", Update, PostOperation, Synchronous, 2, map[], {},
                  [StepImage("image", "", Both, None)])

  /** The update sets only the name. */
  const NameUpdate: Target := EntityTarget(Entity("account", 7, map["name" := Data("Contoso")]))

  /** Images before and after the update; the post-image also holds an
      e-mail address that the pre-image does not. */
  const PreNoMail: Entity := Entity("account", 7, map["name" := Data("Old")])
  const PreWithMail: Entity := Entity("account", 7, map["name" := Data("Old"), "emailaddress1" := Data("a@b.c")])
  const PostWithMail: Entity := Entity("account", 7, map["name" := Data("Contoso"), "emailaddress1" := Data("a@b.c")])

  /** At PostOperation without images the first step dereferences the
      missing post-image, and nothing runs. */
  lemma PostOperationWithoutImagesIsNullReference()
    ensures RunPass([PostA, PostB], NameUpdate, Parent, OfferEvent(None, None, Quiet))
            == Pass(Some(NullReference), NameUpdate, Parent.sharedVariables, [])
  {
    assert PostA.WorkingEntity(NameUpdate, None, None) == Failure(NullReference);
  }

  /** The context B's plugin receives for the name update with both images. */
  function PostBChild(pre: Entity, post: Entity): ContextView
  {
    PostB.ChildContext(Parent, 7, Some("account")).(
      postEntityImages := map["image" := Snapshot(post, AllColumns)],
      preEntityImages := map["image" := Snapshot(pre, AllColumns)])
  }

  /** With both images present, B calls its plugin with both images attached. */
  lemma PostBInvoked(pre: Entity, post: Entity, execute: Handler)
    ensures PostB.Decide(NameUpdate, Some(pre), Some(post), Parent, execute)
            == Step(NameUpdate, Invoked(PostBChild(pre, post), execute("B", PostBChild(pre, post))))
  {
    assert PostB.Stamp(NameUpdate) == NameUpdate;
    assert PostB.WorkingEntity(NameUpdate, Some(pre), Some(post)).Success?;
    assert PostB.Screen(NameUpdate, Some(pre), Some(post), Parent.depth) == None;
    var c := PostB.ChildContext(Parent, TargetId(NameUpdate), TargetName(NameUpdate));
    var image := StepImage("image", "", Both, None);
    assert ImageColumns(image.attributes) == AllColumns;
    assert PostB.AttachImage(image, Some(pre), Some(post), c) == Success(PostBChild(pre, post));
    assert PostB.images[1..] == [];
    assert PostB.AttachImages(PostB.images, Some(pre), Some(post), c) == Success(PostBChild(pre, post));
  }

  /** A calls its plugin when the shadow-merged record holds the e-mail
      address. */
  lemma PostAInvoked(pre: Entity, post: Entity)
    requires "emailaddress1" in ShadowMerged(NameUpdate.entity, Some(pre), post).attributes
    ensures var s := PostA.Decide(NameUpdate, Some(pre), Some(post), Parent, Quiet);
            s.stamped == NameUpdate && s.outcome.Invoked? && s.outcome.reply == Success(map[])
  {
    assert PostA.Stamp(NameUpdate) == NameUpdate;
    assert PostA.WorkingEntity(NameUpdate, Some(pre), Some(post))
           == Success(Some(ShadowMerged(NameUpdate.entity, Some(pre), post)));
    assert PostA.Screen(NameUpdate, Some(pre), Some(post), Parent.depth) == None;
  }

  /** A is skipped when the shadow-merged record lacks the e-mail address. */
  lemma PostASkipped(pre: Entity, post: Entity)
    requires "emailaddress1" !in ShadowMerged(NameUpdate.entity, Some(pre), post).attributes
    ensures PostA.Decide(NameUpdate, Some(pre), Some(post), Parent, Quiet) == Step(NameUpdate, Skipped)
  {
    assert PostA.Stamp(NameUpdate) == NameUpdate;
    assert PostA.WorkingEntity(NameUpdate, Some(pre), Some(post))
           == Success(Some(ShadowMerged(NameUpdate.entity, Some(pre), post)));
    assert !Intersects(ShadowMerged(NameUpdate.entity, Some(pre), post).attributes, PostA.attributes);
  }

  /** The e-mail address, held only by the post-image, is shadow-added. */
  lemma MailOnlyInPostImageIsShadowed()
    ensures "emailaddress1" in ShadowMerged(NameUpdate.entity, Some(PreNoMail), PostWithMail).attributes
  {
    assert "emailaddress1" !in PreNoMail.attributes && "emailaddress1" !in NameUpdate.entity.attributes;
  }

  /** The e-mail address, held by the pre-image, is not shadow-added. */
  lemma MailInPreImageIsNotShadowed()
    ensures "emailaddress1" !in ShadowMerged(NameUpdate.entity, Some(PreWithMail), PostWithMail).attributes
  {
    assert "emailaddress1" in PreWithMail.attributes && "emailaddress1" !in NameUpdate.entity.attributes;
  }

  /** An attribute that only the post-image holds is shadow-added to the
      record the filter examines, so the filtered step runs too. */
  lemma ShadowAddedAttributeRunsFilteredStep()
    ensures var p := RunPass([PostA, PostB], NameUpdate, Parent, OfferEvent(Some(PreNoMail), Some(PostWithMail), Quiet));
            p.error.None? && p.ran == [PostA, PostB]
  {
    var offer := OfferEvent(Some(PreNoMail), Some(PostWithMail), Quiet);
    MailOnlyInPostImageIsShadowed();
    PostAInvoked(PreNoMail, PostWithMail);
    var first := offer(PostA, NameUpdate, Parent);
    assert first.stamped == NameUpdate && first.outcome.Invoked? && first.outcome.reply == Success(map[]);
    PostBInvoked(PreNoMail, PostWithMail, Quiet);
    assert offer(PostB, NameUpdate, Parent).outcome == Invoked(PostBChild(PreNoMail, PostWithMail), Success(map[]));
    assert [PostA, PostB][1..] == [PostB] && [PostB][1..] == [];
    assert Parent.(sharedVariables := Merged(map[], map[])) == Parent;
    var after := RunPass([PostB], NameUpdate, Parent, offer);
    assert RunPass([PostA, PostB], NameUpdate, Parent, offer) == after.(ran := [PostA] + after.ran);
    var rest := RunPass([], NameUpdate, Parent, offer);
    assert after == rest.(ran := [PostB] + rest.ran);
  }

  /** An attribute the pre-image already holds is not shadow-added, so the
      filtered step is skipped and only the unfiltered one runs. */
  lemma PreImageAttributeIsNotShadowed()
    ensures var p := RunPass([PostA, PostB], NameUpdate, Parent, OfferEvent(Some(PreWithMail), Some(PostWithMail), Quiet));
            p.error.None? && p.ran == [PostB]
  {
    var offer := OfferEvent(Some(PreWithMail), Some(PostWithMail), Quiet);
    MailInPreImageIsNotShadowed();
    PostASkipped(PreWithMail, PostWithMail);
    assert offer(PostA, NameUpdate, Parent) == Step(NameUpdate, Skipped);
    PostBInvoked(PreWithMail, PostWithMail, Quiet);
    assert offer(PostB, NameUpdate, Parent).outcome == Invoked(PostBChild(PreWithMail, PostWithMail), Success(map[]));
    assert [PostA, PostB][1..] == [PostB] && [PostB][1..] == [];
    assert RunPass([PostA, PostB], NameUpdate, Parent, offer) == RunPass([PostB], NameUpdate, Parent, offer);
    var rest := RunPass([], NameUpdate, Parent.(sharedVariables := Merged(map[], map[])), offer);
    assert RunPass([PostB], NameUpdate, Parent, offer) == rest.(ran := [PostB] + rest.ran);
  }

  /** An image of type Both at PostOperation gives the plugin both images,
      each with every column. */
  lemma BothImageAttachedAtPostOperation()
    ensures var s := PostB.Decide(NameUpdate, Some(PreNoMail), Some(PostWithMail), Parent, Quiet);
            && s.outcome.Invoked?
            && s.outcome.child.postEntityImages == map["image" := Snapshot(PostWithMail, AllColumns)]
            && s.outcome.child.preEntityImages == map["image" := Snapshot(PreNoMail, AllColumns)]
  {
    PostBInvoked(PreNoMail, PostWithMail, Quiet);
  }

  /** An image of type Both without a pre-image is a null dereference,
      even at PostOperation with a post-image. */
  lemma BothImageWithoutPreImageThrows()
    ensures PostB.Decide(NameUpdate, None, Some(Entity("account", 7, map[])), Parent, Quiet).outcome
            == Rejected(NullReference)
  {
    var empty := Entity("account", 7, map[]);
    assert PostB.Stamp(NameUpdate) == NameUpdate;
    assert PostB.Screen(NameUpdate, None, Some(empty), Parent.depth) == None;
    var c := PostB.ChildContext(Parent, TargetId(NameUpdate), TargetName(NameUpdate));
    var image := StepImage("image", "", Both, None);
    assert PostB.AttachImage(image, None, Some(empty), c) == Failure(NullReference);
  }
}

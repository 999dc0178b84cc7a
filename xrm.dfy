/** The platform's vocabulary as the plugin engine sees it: records, the
    objects an event can target, the step registration records, and the
    errors the engine raises. */
module Xrm {
  import opened Wrappers

  /** A record identifier; 0 stands for `Guid.Empty`. */
  type Guid = nat
  const EmptyGuid: Guid := 0

  /** `Guid.Empty.ToString()`, the user context of steps synthesised from
      platform metadata. */
  const EmptyGuidText: string := "00000000-0000-0000-0000-000000000000"

  /** An attribute or shared-variable value. Only identifiers are told apart;
      every other value is opaque. */
  datatype Value = GuidValue(guid: Guid) | Data(repr: string)

  type Attributes = map<string, Value>

  /** A full record: logical name, identifier and attribute collection. */
  datatype Entity = Entity(logicalName: string, id: Guid, attributes: Attributes)

  /** The object an event is about: a full record, a reference to one, an
      organisation request, or anything else (including null). */
  datatype Target =
    | EntityTarget(entity: Entity)
    | ReferenceTarget(refName: string, refId: Guid)
    | RequestTarget(requestName: string)
    | OtherTarget

  /** The event operations; the ones the engine treats specially are named,
      every other message is carried by name. */
  datatype EventOperation =
    | Create
    | Update
    | Delete
    | Associate
    | Disassociate
    | Other(messageName: string)

  /** C# enums cast from the integers of a step configuration: any integer is
      a value, the named ones are the constants below. */
  type ExecutionStage = int
  const PreValidation: ExecutionStage := 10
  const PreOperation: ExecutionStage := 20
  const PostOperation: ExecutionStage := 40

  type ExecutionMode = int
  const Synchronous: ExecutionMode := 0
  const Asynchronous: ExecutionMode := 1

  type ImageType = int
  const PreImage: ImageType := 0
  const PostImage: ImageType := 1
  const Both: ImageType := 2

  /** The columns an image is scoped to. */
  datatype ColumnSet = AllColumns | Columns(names: seq<string>)

  /** `entity.CloneEntity(metadata, columns)`: an image of a record scoped to
      a column set. The cloning helper itself is not part of this model, so the
      snapshot records what it was taken from. */
  datatype Snapshot = Snapshot(source: Entity, columns: ColumnSet)

  /** Primary-id attribute of each entity whose metadata names one
      (`metadata.GetMetadata(name)?.PrimaryIdAttribute`). */
  type Metadata = map<string, string>

  /** The three parts of a step configuration. */
  datatype StepSubscription = StepSubscription(
    className: string,
    executionStage: int,
    eventOperation: EventOperation,
    logicalName: string)

  datatype StepDeployment = StepDeployment(
    deployment: int,
    executionMode: int,
    name: string,
    executionOrder: int,
    filteredAttributes: Option<string>,
    userContext: string,
    isolationMode: int)

  datatype StepImage = StepImage(
    name: string,
    entityAlias: string,
    imageType: int,
    attributes: Option<string>)

  datatype StepConfig = StepConfig(
    subscription: StepSubscription,
    deployment: StepDeployment,
    images: seq<StepImage>)

  /** A plugin step as registered on the platform. */
  datatype MetaPlugin = MetaPlugin(
    assemblyName: string,
    name: string,
    messageName: EventOperation,
    primaryEntity: string,
    stage: int,
    mode: int,
    rank: int,
    filteredAttributes: Option<string>,
    assemblyIsolationMode: int)

  /** Which plugin a trigger runs: the full name of its type. */
  type HandlerId = string

  /** A concrete plugin type: its full name, and the step configurations its
      `PluginProcessingStepConfigs` method returns when it has one. */
  datatype PluginType = PluginType(fullName: string, stepConfigs: Option<seq<StepConfig>>)

  datatype PluginRegistrationScope = Permanent | Temporary

  /** Text of the fault raised when the depth ceiling is passed. */
  const InfiniteLoopMessage: string :=
    "This workflow job was canceled because the workflow that started it included an infinite loop."
    + " Correct the workflow logic and try again."

  /** The exceptions the engine raises or lets through. */
  datatype Error =
    | InfiniteLoopFault(message: string)          // FaultException, depth ceiling
    | EntityScopedAssociation(operation: EventOperation)  // MockupException, Associate/Disassociate
    | UnknownPlugin(message: string)              // MockupException, registration
    | NullReference                               // a null target or image dereferenced
    | DuplicateImageName(imageName: string)       // Dictionary.Add on an existing key
    | HandlerFault(reason: string)                // the plugin's own exception, unwrapped
}

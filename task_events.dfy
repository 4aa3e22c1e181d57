/** The two shapes of event the task logger receives, and the accessors that read status,
    task ARN, device ARN and device class from either shape. */
module TaskEvents {
  import opened Text
  import opened Calendar

  datatype UserIdentity = UserIdentity(arn: string)
  datatype ResponseElements = ResponseElements(quantumTaskArn: string, status: string)
  datatype RequestParameters = RequestParameters(deviceArn: string)

  /** The event's `detail`: a task state change, or the record of a `CreateQuantumTask` call. */
  datatype Detail =
    | StateChange(shots: int, status: string, quantumTaskArn: string, eventName: string, deviceArn: string)
    | Creation(userIdentity: UserIdentity, responseElements: ResponseElements, requestParameters: RequestParameters)

  datatype TaskEvent = TaskEvent(time: DateTime, detail: Detail)

  const QpuType: string := "qpu"
  const SimulatorType: string := "quantum-simulator"

  function Status(e: TaskEvent): string
  {
    match e.detail
    case StateChange(_, status, _, _, _) => status
    case Creation(_, response, _) => response.status
  }

  function DeviceArn(e: TaskEvent): string
  {
    match e.detail
    case StateChange(_, _, _, _, device) => device
    case Creation(_, _, request) => request.deviceArn
  }

  function TaskArn(e: TaskEvent): string
  {
    match e.detail
    case StateChange(_, _, task, _, _) => task
    case Creation(_, response, _) => response.quantumTaskArn
  }

  /** Which shape each accessor reads: the state change's own fields, or the creation
      record's `responseElements` and `requestParameters`. */
  lemma AccessorsByShape(e: TaskEvent)
    ensures e.detail.StateChange? ==>
      Status(e) == e.detail.status && TaskArn(e) == e.detail.quantumTaskArn && DeviceArn(e) == e.detail.deviceArn
    ensures e.detail.Creation? ==>
      && Status(e) == e.detail.responseElements.status
      && TaskArn(e) == e.detail.responseElements.quantumTaskArn
      && DeviceArn(e) == e.detail.requestParameters.deviceArn
  {
  }

  /** `arn.split('/')[1]`: the text between the first and the second '/'. An ARN without
      '/' has no second piece (Python raises IndexError). */
  function DeviceTypeOf(arn: string): (t: string)
    requires '/' in arn
    ensures '/' !in t
  {
    var parts := Split(arn, '/');
    SplitHasTwo(arn);
    parts[1]
  }

  lemma SplitHasTwo(arn: string)
    requires '/' in arn
    ensures |Split(arn, '/')| >= 2
  {
    JoinSplit(arn, '/');
  }

  function DeviceType(e: TaskEvent): string
    requires '/' in DeviceArn(e)
  {
    DeviceTypeOf(DeviceArn(e))
  }

  /** `'qpu' == device_type`. */
  predicate IsQpuTask(e: TaskEvent): (b: bool)
    requires '/' in DeviceArn(e)
    ensures b ==> DeviceType(e) != SimulatorType
  {
    DeviceType(e) == QpuType
  }

  /** `'quantum-simulator' == device_type`. */
  predicate IsSimulatorTask(e: TaskEvent): (b: bool)
    requires '/' in DeviceArn(e)
    ensures b ==> DeviceType(e) != QpuType
  {
    DeviceType(e) == SimulatorType
  }

  /** The device type is exactly the segment after the first '/', up to the next '/' or
      the end of the ARN. */
  lemma {:induction false} DeviceTypeIsSecondSegment(arn: string, head: string, t: string, tail: string)
    requires arn == head + "/" + t + tail
    requires '/' !in head && '/' !in t
    requires tail == [] || tail[0] == '/'
    ensures '/' in arn
    ensures DeviceTypeOf(arn) == t
  {
    assert arn[|head|] == '/';
    assert arn == head + ['/'] + (t + tail);
    SplitPrefix(head, t + tail, '/');
    SplitFirst(t, tail, '/');
  }

  /** The device ARNs the project's sample script submits to. */
  lemma SampleQpuDeviceType(arn: string)
    requires arn == "arn:aws:braket:::device/qpu/ionq/ionQdevice"
    ensures '/' in arn && DeviceTypeOf(arn) == QpuType
  {
    var head, tail := "arn:aws:braket:::device", "/ionq/ionQdevice";
    assert arn == head + "/" + QpuType + tail;
    assert forall i :: 0 <= i < |head| ==> head[i] != '/';
    DeviceTypeIsSecondSegment(arn, head, QpuType, tail);
  }

  /** A task is never both a QPU task and a simulator task; a task is a QPU task exactly when
      its device ARN has `qpu` as second segment, and any other segment is neither class. */
  lemma DeviceClasses(e: TaskEvent, head: string, t: string, tail: string)
    requires DeviceArn(e) == head + "/" + t + tail
    requires '/' !in head && '/' !in t
    requires tail == [] || tail[0] == '/'
    ensures '/' in DeviceArn(e)
    ensures IsQpuTask(e) <==> t == QpuType
    ensures IsSimulatorTask(e) <==> t == SimulatorType
    ensures !(IsQpuTask(e) && IsSimulatorTask(e))
  {
    DeviceTypeIsSecondSegment(DeviceArn(e), head, t, tail);
  }
}

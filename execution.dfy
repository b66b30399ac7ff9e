/**
 * `execute` of the DocxTemplater node: one pass over the input items,
 * rendering each one and collecting one result per item, in input order.
 */
module Execution {
  import opened Wrappers
  import opened Json
  import ToolBridge
  import FilterRegistry
  import RenderErrors

  type Bytes = seq<bv8>

  /** The binary data `prepareBinaryData` makes of the rendered document. */
  datatype BinaryData = BinaryData(fileName: string, data: Bytes)

  /**
   * How rendering one item ended, given the filters built for it: the
   * rendered document, the rejection of `renderAsync`, or a failure of some
   * other step of the item (reading parameters or the input file, loading
   * modules, zipping, preparing the output).
   */
  datatype RenderRun = Rendered(output: Bytes) | RenderRejected(error: RenderErrors.RenderError) | StepFailed(message: string)

  /**
   * What the node reads for item `i`: its parameters, the tools connected
   * for it (`[]` when there are none) and the outcome of rendering it with
   * a given filter map.
   */
  datatype ItemParams = ItemParams(
    outputFileProperty: string,
    outputFileName: string,
    tools: seq<ToolBridge.Tool>,
    render: map<string, FilterRegistry.Filter> -> RenderRun)

  /**
   * The error caught for an item: the node error thrown by the render-error
   * handler, the TypeError the handler throws while reading `property` of an
   * undefined value, or the failure of another step.
   */
  datatype ItemFailure =
    | Classified(error: RenderErrors.OperationError)
    | HandlerCrashed(property: string)
    | Other(message: string)

  /** One entry of `returnData`. */
  datatype ExecutionData = ExecutionData(json: Value, binary: Option<map<string, BinaryData>>, pairedItem: nat)

  /** `new NodeApiError(node, error, {itemIndex: i})`, which aborts the whole run. */
  datatype NodeApiError = NodeApiError(cause: ItemFailure, itemIndex: nat)

  const ErrorWhileRendering := "Error while rendering"

  /** How rendering the item ends with the filters built from its own tools. */
  function RenderOutcome(params: ItemParams): RenderRun {
    params.render(FilterRegistry.Filters(params.tools))
  }

  /**
   * The body of the `try` for item `i` of a render: build the filters from
   * the item's tools, render, and pass a rejection through the handler of
   * lines 314-335 as written.
   */
  function RenderItem(i: nat, params: ItemParams): (r: Result<BinaryData, ItemFailure>)
    ensures r.Success? <==> RenderOutcome(params).Rendered?
    ensures r.Success? ==> r.value == BinaryData(params.outputFileName, RenderOutcome(params).output)
    ensures RenderOutcome(params).StepFailed? ==> r == Failure(Other(RenderOutcome(params).message))
    ensures RenderOutcome(params).RenderRejected? ==>
      var handled := RenderErrors.ClassifyAsWritten(RenderOutcome(params).error, i);
      && (handled.Success? ==> r == Failure(Classified(handled.value)))
      && (handled.Failure? ==> r == Failure(HandlerCrashed(handled.error)))
    ensures r.Failure? && r.error.Classified? ==> r.error.error.itemIndex == i
  {
    match RenderOutcome(params)
    case Rendered(output) => Success(BinaryData(params.outputFileName, output))
    case RenderRejected(e) =>
      (match RenderErrors.ClassifyAsWritten(e, i)
       case Success(nodeError) => Failure(Classified(nodeError))
       case Failure(property) => Failure(HandlerCrashed(property)))
    case StepFailed(message) => Failure(Other(message))
  }

  /**
   * With the handler corrected, the item fails in the same way except that a
   * crash of the handler becomes the unwrapped node error.
   */
  lemma RenderItemCrashOnlyWithoutRootError(i: nat, params: ItemParams)
    ensures RenderItem(i, params).Failure? && RenderItem(i, params).error.HandlerCrashed? <==>
      && RenderOutcome(params).RenderRejected?
      && RenderErrors.IsSingleMultiError(RenderOutcome(params).error)
      && RenderErrors.RootOf(RenderOutcome(params).error.errors[0]).None?
    ensures RenderItem(i, params).Failure? && RenderItem(i, params).error.Classified? ==>
      RenderItem(i, params).error.error == RenderErrors.Classify(RenderOutcome(params).error, i)
  {
    if RenderOutcome(params).RenderRejected? {
      RenderErrors.CorrectedAgreesWithWritten(RenderOutcome(params).error, i);
    }
  }

  /** The entry recorded for a failed item when the node continues on failure. */
  function ErrorEntry(i: nat): (entry: ExecutionData)
    ensures entry.pairedItem == i && entry.binary.None?
    ensures entry.json.Obj? && Get(entry.json.fields, "error") == Some(Str(ErrorWhileRendering))
  {
    ExecutionData(Obj([("error", Str(ErrorWhileRendering))]), None, i)
  }

  /** Item `i` is the first item whose render fails. */
  predicate IsFirstFailure(items: seq<ItemParams>, i: int) {
    && 0 <= i < |items|
    && RenderItem(i, items[i]).Failure?
    && forall k :: 0 <= k < i ==> RenderItem(k, items[k]).Success?
  }

  /**
   * The loop of `execute`. For a render, every item yields one entry, in
   * input order and paired with its index: a success carries `json: {}` and
   * the document under the output property; a failure, when the node
   * continues on failure, carries the error text. Without continue-on-fail
   * the first failing item aborts the run. Any other operation yields nothing.
   */
  method Execute(operation: string, items: seq<ItemParams>, continueOnFail: bool)
    returns (r: Result<seq<ExecutionData>, NodeApiError>)
    ensures operation != "render" ==> r == Success([])
    ensures continueOnFail ==> r.Success?
    ensures operation == "render" && r.Success? ==>
      && |r.value| == |items|
      && forall k :: 0 <= k < |items| ==>
           && r.value[k].pairedItem == k
           && (RenderItem(k, items[k]).Success? ==>
                 && r.value[k].json == Obj([])
                 && r.value[k].binary == Some(map[items[k].outputFileProperty := RenderItem(k, items[k]).value]))
           && (RenderItem(k, items[k]).Failure? ==> r.value[k] == ErrorEntry(k))
    ensures r.Failure? ==>
      && operation == "render" && !continueOnFail
      && IsFirstFailure(items, r.error.itemIndex)
      && r.error.cause == RenderItem(r.error.itemIndex, items[r.error.itemIndex]).error
    ensures (operation == "render" && !continueOnFail
             && exists k :: 0 <= k < |items| && RenderItem(k, items[k]).Failure?) ==> r.Failure?
  {
    var returnData: seq<ExecutionData> := [];
    for i := 0 to |items|
      invariant operation != "render" ==> returnData == []
      invariant operation == "render" ==> |returnData| == i
      invariant operation == "render" ==> forall k :: 0 <= k < i ==>
        && returnData[k].pairedItem == k
        && (RenderItem(k, items[k]).Success? ==>
              && returnData[k].json == Obj([])
              && returnData[k].binary == Some(map[items[k].outputFileProperty := RenderItem(k, items[k]).value]))
        && (RenderItem(k, items[k]).Failure? ==> returnData[k] == ErrorEntry(k))
      invariant operation == "render" && !continueOnFail ==>
        forall k :: 0 <= k < i ==> RenderItem(k, items[k]).Success?
    {
      if operation == "render" {
        var outcome := RenderItem(i, items[i]);
        match outcome
        case Success(binaryData) =>
          returnData := returnData + [ExecutionData(Obj([]), Some(map[items[i].outputFileProperty := binaryData]), i)];
        case Failure(error) =>
          if continueOnFail {
            returnData := returnData + [ErrorEntry(i)];
            continue;
          }
          return Failure(NodeApiError(error, i));
      }
    }
    return Success(returnData);
  }
}

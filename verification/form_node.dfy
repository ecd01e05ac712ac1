/** The parts of a FormKit node the handlers touch, as a plain record. */
module FormNode {
  import opened Js

  /** `node.type`. */
  datatype Kind = Input | List | Group

  /** A FormKit node: `loading` and `validating` stand for the store
      messages of those keys, `localErrors`/`childErrors` for the two
      arguments of the last `setErrors` call. */
  datatype Node = Node(
    id: nat,
    name: string,
    kind: Kind,
    propsType: string,
    submitBehavior: Option<string>,
    disabled: bool,
    loading: bool,
    validating: bool,
    localErrors: Value,
    childErrors: map<string, Value>,
    value: Value)

  /** `node.props.submitBehavior === 'live'` */
  predicate IsLive(n: Node)
  {
    n.submitBehavior == Some("live")
  }

  /** The handler both `useForm` and the FormKit addon register for `start`:
      set the loading message, and disable the node unless it submits live. */
  function StartLoading(n: Node): (r: Node)
    ensures r.loading
    ensures r.disabled == (if IsLive(n) then n.disabled else true)
    ensures r == n.(loading := r.loading, disabled := r.disabled)
  {
    n.(loading := true, disabled := if IsLive(n) then n.disabled else true)
  }

  /** The `finish` handler: remove the loading message, re-enable the node
      unless it submits live. */
  function StopLoading(n: Node): (r: Node)
    ensures !r.loading
    ensures r.disabled == (if IsLive(n) then n.disabled else false)
    ensures r == n.(loading := r.loading, disabled := r.disabled)
  {
    n.(loading := false, disabled := if IsLive(n) then n.disabled else false)
  }

  /** The `error` handler: the node's own entry (or an empty list when its
      name is not a key) becomes the form-level errors, the whole map the
      field errors. */
  function ApplySubmitErrors(n: Node, errors: map<string, Value>): (r: Node)
    ensures n.name in errors ==> r.localErrors == errors[n.name]
    ensures n.name !in errors ==> r.localErrors == Arr([])
    ensures r.childErrors == errors
    ensures r == n.(localErrors := r.localErrors, childErrors := r.childErrors)
  {
    n.(localErrors := if n.name in errors then errors[n.name] else Arr([]), childErrors := errors)
  }

  /** A live node's disabled flag is never touched by a submission. */
  lemma LiveNodeKeepsDisabled(n: Node, errors: map<string, Value>)
    requires IsLive(n)
    ensures StopLoading(ApplySubmitErrors(StartLoading(n), errors)).disabled == n.disabled
    ensures StopLoading(StartLoading(n)).disabled == n.disabled
  {
  }

  /** A non-live node is disabled while loading and enabled afterwards. */
  lemma NonLiveNodeReenabled(n: Node)
    requires !IsLive(n)
    ensures StartLoading(n).disabled && StartLoading(n).loading
    ensures !StopLoading(StartLoading(n)).disabled && !StopLoading(StartLoading(n)).loading
  {
  }
}

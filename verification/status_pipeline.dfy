/** The status pipeline shared by refunds and refund lines
    (`StatusMixin` in ecommerce/extensions/refund/models.py).

    A pipeline maps each status to the statuses an object in that status may
    move to; the Django setting that holds it becomes a plain map here. */
module StatusPipeline {
  import opened Wrappers

  type Pipeline<S> = map<S, set<S>>

  /** The `InvalidStatus` exception, carrying the transition that was refused. */
  datatype InvalidStatus<S> = InvalidStatus(current: S, requested: S)

  /** `available_statuses`: the successors of `current`, or none when the
      pipeline has no entry for it. */
  function AvailableStatuses<S(==)>(pipeline: Pipeline<S>, current: S): set<S>
  {
    if current in pipeline then pipeline[current] else {}
  }

  /** `set_status` without the save: the status an object in `current` ends
      up in when `requested` is asked for, or the `InvalidStatus` it raises. */
  function Transition<S(==)>(pipeline: Pipeline<S>, current: S, requested: S): (r: Result<S, InvalidStatus<S>>)
    ensures r.Ok? <==> current in pipeline && requested in pipeline[current]
    ensures r.Ok? ==> r.value == requested
    ensures r.Err? ==> r.error == InvalidStatus(current, requested)
  {
    if requested in AvailableStatuses(pipeline, current) then Ok(requested)
    else Err(InvalidStatus(current, requested))
  }
}

/**
 * Unwrapping the server's collection envelopes.  The server wraps every list
 * as `{ "$values": [...] }`; the client takes the array under "$values", or
 * `[]` when it is missing or not an array.  The project screen also unwraps
 * each project's `tasks` the same way.  `$id`/`$ref` markers are left as they
 * arrive: the client does not resolve them.
 */
module Envelope {
  import opened Wrappers
  import opened Wire

  /** An object whose "$values" field is an array. */
  predicate IsEnvelope(data: Json) {
    data.Obj? && ValuesKey in data.fields && data.fields[ValuesKey].Arr?
  }

  /** What a list should become: the envelope's elements, else nothing. */
  function Listed(data: Json): seq<Json> {
    if IsEnvelope(data) then data.fields[ValuesKey].items else []
  }

  /**
   * `values && Array.isArray(values) ? values : []`; the truthiness test adds
   * nothing, since every array is truthy.
   */
  function ItemsIfArray(values: Option<Json>): (r: seq<Json>)
    ensures IsArray(values) ==> r == values.value.items
    ensures !IsArray(values) ==> r == []
  {
    if Truthy(values) && IsArray(values) then values.value.items else []
  }

  /**
   * `data.$values && Array.isArray(data.$values) ? data.$values : []` on a
   * response body: exactly the envelope's elements, in order, or `[]`.  It
   * throws only when the body is `null`.
   */
  function Unwrap(data: Json): (r: Result<seq<Json>, string>)
    ensures r.Failure? <==> data.Null?
    ensures r.Failure? ==> r.error == TypeErrorMessage(ValuesKey)
    ensures r.Success? ==> r.value == Listed(data)
  {
    var values :- Get(data, ValuesKey);
    Success(ItemsIfArray(values))
  }

  /**
   * `project.tasks && project.tasks.$values && Array.isArray(project.tasks.$values)
   * ? project.tasks.$values : []`, given the value read from `project.tasks`.
   */
  function TasksOf(tasks: Option<Json>): (r: seq<Json>)
    ensures tasks.Some? ==> r == Listed(tasks.value)
    ensures tasks.None? ==> r == []
  {
    if Truthy(tasks) then Unwrap(tasks.value).GetOr([]) else []
  }

  /** The value read from `p.tasks` on a value that is not null. */
  function TasksField(p: Json): Option<Json> {
    if p.Obj? && TasksKey in p.fields then Some(p.fields[TasksKey]) else None
  }

  /**
   * `{ ...project, tasks: ... }` for one element of the projects list: every
   * field of a project object is kept except `tasks`, which becomes its
   * envelope's elements (or `[]`).  Reading `tasks` of `null` throws.
   */
  function WithTasksUnwrapped(p: Json): (r: Result<Json, string>)
    ensures r.Failure? <==> p.Null?
    ensures r.Failure? ==> r.error == TypeErrorMessage(TasksKey)
    ensures r.Success? ==> r.value.Obj? && TasksKey in r.value.fields && r.value.fields[TasksKey] == Arr(TasksOf(TasksField(p)))
    ensures r.Success? ==> r.value.fields.Keys == Spread(p).Keys + {TasksKey}
    ensures r.Success? ==> forall k :: k in Spread(p) && k != TasksKey ==> r.value.fields[k] == Spread(p)[k]
    ensures p.Obj? ==> r.Success? && r.value.fields.Keys == p.fields.Keys + {TasksKey}
  {
    var tasks :- Get(p, TasksKey);
    Success(Obj(Spread(p)[TasksKey := Arr(TasksOf(tasks))]))
  }

  /**
   * `values.map(project => ({ ...project, tasks: ... }))`: one result per
   * element, in order; the map throws as soon as it meets a `null` element.
   */
  function MapProjects(values: seq<Json>): (r: Result<seq<Json>, string>)
    ensures r.Failure? <==> exists i :: 0 <= i < |values| && values[i].Null?
    ensures r.Failure? ==> r.error == TypeErrorMessage(TasksKey)
    ensures r.Success? ==> |r.value| == |values|
    ensures r.Success? ==> forall i :: 0 <= i < |values| ==> WithTasksUnwrapped(values[i]) == Success(r.value[i])
  {
    if values == [] then Success([])
    else
      var first :- WithTasksUnwrapped(values[0]);
      var rest :- MapProjects(values[1..]);
      Success([first] + rest)
  }

  /**
   * The projects screen's decoding (App.js:63-70): the envelope's elements,
   * each with its tasks unwrapped, or `[]` when there is no envelope.  It
   * throws when the body is `null` or the envelope holds a `null`.
   */
  function UnwrapProjects(data: Json): (r: Result<seq<Json>, string>)
    ensures r.Failure? <==> data.Null? || exists i :: 0 <= i < |Listed(data)| && Listed(data)[i].Null?
    ensures r.Failure? ==> r.error == TypeErrorMessage(if data.Null? then ValuesKey else TasksKey)
    ensures r.Success? ==> |r.value| == |Listed(data)|
    ensures r.Success? ==> forall i :: 0 <= i < |r.value| ==> WithTasksUnwrapped(Listed(data)[i]) == Success(r.value[i])
  {
    var values :- Get(data, ValuesKey);
    if Truthy(values) && IsArray(values) then
      assert values.value.items == Listed(data);
      MapProjects(values.value.items)
    else
      Success([])
  }
}

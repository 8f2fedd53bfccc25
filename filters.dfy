/** The identity filter both account managers build in `get_*` and
    `delete_*` from an optional username and an optional uuid. */
module Filters {
  import opened Collection

  /** The filter document: empty, `{"uuid": …}` or `{"username": …}`. */
  datatype Selector = NoFilter | ByUuid(uuid: string) | ByUsername(username: string)

  /** The filter the managers end up with (reference definition). */
  function SelectorOf(username: Option<string>, uuid: Option<string>): Selector
  {
    if username.Some? then ByUsername(username.value)
    else if uuid.Some? then ByUuid(uuid.value)
    else NoFilter
  }

  /** The local `doc` starts empty, is overwritten by the uuid criterion and
      then by the username criterion: a username always wins and the uuid is
      then dropped, not combined with it. */
  method BuildSelector(username: Option<string>, uuid: Option<string>) returns (f: Selector)
    ensures username.Some? ==> f == ByUsername(username.value)
    ensures username.None? && uuid.Some? ==> f == ByUuid(uuid.value)
    ensures f == NoFilter <==> username.None? && uuid.None?
    ensures f == SelectorOf(username, uuid)
  {
    f := NoFilter;
    if uuid.Some? {
      f := ByUuid(uuid.value);
    }
    if username.Some? {
      f := ByUsername(username.value);
    }
  }
}

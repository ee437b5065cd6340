/** `dict_utils.remove_none_from_dict`, as far as the sender relies on it. */
module DictUtils {

  import opened Messages

  /** No field of `d` holds `None`. */
  predicate NoNulls(d: Dict) {
    forall k :: k in d ==> d[k] != Null
  }

  /** Drops every key whose value is `None` and keeps every other pair. */
  function RemoveNone(d: Dict): (r: Dict)
    ensures NoNulls(r)
    ensures forall k :: k in r <==> k in d && d[k] != Null
    ensures forall k :: k in r ==> r[k] == d[k]
  {
    map k | k in d && d[k] != Null :: d[k]
  }
}

/** The conditional assignments the list views use to fill a parameter
    object from a filter form, shared by the record and budget lists. */
module FilterParams {
  import opened Wrappers
  import opened Params
  import opened Ranges
  import K = FilterKeys

  /** A text field is sent when it is non-empty. */
  function TextParam(s: string): Option<Value> {
    if s == "" then None else Some(Str(s))
  }

  function AmountParam(a: Option<int>): Option<Value> {
    if a.None? then None else Some(Num(a.value))
  }

  function IdValues(ids: seq<string>): (vs: seq<Value>)
    ensures |vs| == |ids| && forall i :: 0 <= i < |ids| ==> vs[i] == Str(ids[i])
  {
    if ids == [] then [] else [Str(ids[0])] + IdValues(ids[1..])
  }

  function IdsParam(ids: seq<string>): Option<Value> {
    if ids == [] then None else Some(Arr(IdValues(ids)))
  }

  /** `if (s) obj[key] = s;` on a key the object does not have yet. */
  method AppendText(p: Params<K.Key>, key: K.Key, s: string) returns (q: Params<K.Key>)
    ensures q == p + Field(key, TextParam(s))
  {
    q := p;
    if s != "" {
      q := q + [(key, Str(s))];
    }
  }

  /** `if (ids.length > 0) obj[key] = ids;` */
  method AppendIds(p: Params<K.Key>, key: K.Key, ids: seq<string>) returns (q: Params<K.Key>)
    ensures q == p + Field(key, IdsParam(ids))
  {
    q := p;
    if |ids| > 0 {
      q := q + [(key, Arr(IdValues(ids)))];
    }
  }

  /** The amount pair of `retrieveRecords` (and of `retrieveBudgets`): the
      lower bound when set, then the upper bound, raised to the lower one
      when it is smaller. */
  method AppendAmountRange(p: Params<K.Key>, lowerKey: K.Key, upperKey: K.Key, lower: Option<int>, upper: Option<int>)
    returns (q: Params<K.Key>)
    ensures q == p + Field(lowerKey, AmountParam(lower)) + Field(upperKey, AmountParam(UpperAmount(lower, upper)))
  {
    q := p;
    if lower.Some? {
      var min := lower.value;
      q := q + [(lowerKey, Num(min))];
      if upper.Some? {
        var max := upper.value;
        q := q + [(upperKey, Num(if max < min then min else max))];
      }
    } else if upper.Some? {
      q := q + [(upperKey, Num(upper.value))];
    }
  }

  /** The date pair of `retrieveRecords` (and the two of `retrieveBudgets`),
      on the same rule with dates compared as strings. */
  method AppendDateRange(p: Params<K.Key>, lowerKey: K.Key, upperKey: K.Key, lower: string, upper: string)
    returns (q: Params<K.Key>)
    ensures q == p + Field(lowerKey, TextParam(lower)) + Field(upperKey, TextParam(UpperDate(lower, upper)))
  {
    q := p;
    if lower != "" {
      q := q + [(lowerKey, Str(lower))];
      if upper != "" {
        q := q + [(upperKey, Str(if Strings.Less(upper, lower) then lower else upper))];
      }
    } else if upper != "" {
      q := q + [(upperKey, Str(upper))];
    }
  }
}

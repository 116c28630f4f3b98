/** The older POI service in `dwd.py`. Its `get_cloudcover`, `to_float` and
    `get_ww` are the same code as in `weatherservices.py` and are modelled
    once, in module Services; what differs is the buffer's `get_data` and the
    renaming of `_to_weewx`, which keeps dateTime. */
module DwdLegacy {
  import opened Builtins
  import opened Services

  /** The operands of a subtraction in `get_data`: a record entry is a
      (value, unit, group) tuple, the last query time a number. */
  datatype Operand = Entry(t: ValueTuple) | Count(n: int)

  /** Python's `a - b` on those operands: only numbers subtract; a tuple
      raises TypeError. */
  function Minus(a: Operand, b: Operand): (r: Result<int>)
    ensures r.Ok? <==> a.Count? && b.Count?
    ensures r.Ok? ==> r.value + b.n == a.n
  {
    if a.Count? && b.Count? then Ok(a.n - b.n) else Err(TypeError)
  }

  /** The buffer of `DWDPOIthread` in `dwd.py`. */
  class LegacyPoiThread {
    var data: seq<Dict>
    var lastGetTs: int

    constructor ()
      ensures data == [] && lastGetTs == 0
    {
      data := [];
      lastGetTs := 0;
    }

    /** `get_data`: the interval is the time of the last record minus the
        last query time, which then moves to that time. The interval is never
        available: an empty buffer raises IndexError, a record without 'time'
        KeyError, and 'time' holds a (value, unit, group) tuple, whose
        subtraction raises TypeError; all three are caught. So the interval is
        always None and the last query time never moves. */
    method GetData() returns (d: seq<Dict>, interval: Option<int>)
      modifies this
      ensures d == data && data == old(data)
      ensures interval.None? && lastGetTs == old(lastGetTs)
    {
      var r: Result<int>;
      if |data| == 0 {
        r := Err(IndexError);
      } else {
        var lastTs := Lookup(data[|data| - 1], "time");
        if lastTs.None? {
          r := Err(KeyError);
        } else {
          r := Minus(Entry(lastTs.value), Count(lastGetTs));
        }
      }
      // the `try` moves the last query time only when the subtraction
      // succeeded; the `except` leaves it and answers None
      lastGetTs := match r case Ok(iv) => lastGetTs + iv case Err(_) => lastGetTs;
      interval := match r case Ok(iv) => Some(iv) case Err(_) => None;
      d := data;
    }
  }

  /** A name `_to_weewx` of `dwd.py` writes for a non-empty key. */
  lemma LegacyOutKey(prefix: string, key: string)
    requires key != ""
    ensures OutKey(prefix, key, true).Ok?
    ensures var k := OutKey(prefix, key, true).value; |prefix| < |k| && k[..|prefix|] == prefix
    ensures key == "dateTime" ==> OutKey(prefix, key, true).value == prefix + "DateTime"
  {
    var k := prefix + [UpperChar(key[0])] + key[1..];
    assert k == prefix + ([UpperChar(key[0])] + key[1..]);
    assert k[..|prefix|] == prefix;
    if key == "dateTime" {
      assert [UpperChar(key[0])] + key[1..] == "DateTime";
    }
  }

  /** `_to_weewx` of `dwd.py` is ToWeewxOf with `legacy`: every name it
      writes starts with the prefix, and a dateTime entry is passed on as
      prefix + "DateTime". */
  lemma LegacyKeysPrefixed(prefix: string, reply: Dict, convert: ValueTuple -> Result<Scalar>)
    requires ToWeewxOf(prefix, reply, convert, true).Ok?
    ensures forall i :: 0 <= i < |reply| && reply[i].0 == "dateTime" ==> prefix + "DateTime" in ToWeewxOf(prefix, reply, convert, true).value
    ensures forall k :: k in ToWeewxOf(prefix, reply, convert, true).value ==> |prefix| < |k| && k[..|prefix|] == prefix
  {
    ToWeewxKeys(prefix, reply, convert, true);
    var d := ToWeewxOf(prefix, reply, convert, true).value;
    forall i | 0 <= i < |reply| && reply[i].0 == "dateTime"
      ensures prefix + "DateTime" in d
    {
      LegacyOutKey(prefix, reply[i].0);
    }
    forall k | k in d
      ensures |prefix| < |k| && k[..|prefix|] == prefix
    {
      var j :| 0 <= j < |reply| && !Dropped(reply[j].0, prefix, true) && OutKey(prefix, reply[j].0, true) == Ok(k);
      LegacyOutKey(prefix, reply[j].0);
    }
  }
}

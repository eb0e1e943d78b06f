/**
 * Calibration data for Feetech servos: the output unit chosen in the
 * configuration, each servo's recorded raw `min` and `max`, the center and
 * range derived from them, and the lookup of a servo's center by bus id.
 */
module Calibration {
  import opened Ints
  import opened Wrappers

  /** Output unit for published positions. */
  datatype Units = Raw | Deg | Rad

  /** The configuration string that names each unit. */
  function UnitName(u: Units): string
  {
    match u
    case Raw => "raw"
    case Deg => "deg"
    case Rad => "rad"
  }

  /** `Units::from_str`: exactly the three unit names parse; anything else is `None`. */
  function UnitsFromStr(s: string): (r: Option<Units>)
    ensures r.Some? <==> s == "raw" || s == "deg" || s == "rad"
    ensures r.Some? ==> UnitName(r.value) == s
  {
    if s == "raw" then Some(Raw)
    else if s == "deg" then Some(Deg)
    else if s == "rad" then Some(Rad)
    else None
  }

  /** Every unit's name parses back to that unit. */
  lemma UnitNamesParse(u: Units)
    ensures UnitsFromStr(UnitName(u)) == Some(u)
  {
  }

  /** `Units::default()`: the unit a configuration that names none gets, the one "raw" parses to. */
  function DefaultUnits(): (u: Units)
    ensures UnitsFromStr("raw") == Some(u)
  {
    Raw
  }

  /** Calibration for a single servo: its bus id and the raw extremes it was seen at. */
  datatype ServoCalibration = ServoCalibration(id: u8, min: u16, max: u16)
  {
    /**
     * The midpoint between `min` and `max`, the "zero" position. The source
     * computes it in `f32`; for `u16` inputs the sum is below 2^24 and halving
     * is exact, so the real number here is the value the source gets.
     */
    function Center(): (c: real)
      ensures 2.0 * c == min as real + max as real
      ensures min <= max ==> min as real <= c <= max as real
      ensures max < min ==> max as real < c < min as real
    {
      (min as real + max as real) / 2.0
    }

    /** `max.saturating_sub(min)`: the usable range in ticks, never below zero. */
    function Range(): (r: u16)
      ensures min <= max ==> min + r == max
      ensures max <= min ==> r == 0
    {
      if min <= max then max - min else 0
    }
  }

  /** The center of a servo that was never sampled (`min = 65535`, `max = 0`) sits at 32767.5 and its range is 0. */
  lemma UnsampledServo(id: u8)
    ensures ServoCalibration(id, U16_MAX, U16_MIN).Range() == 0
    ensures ServoCalibration(id, U16_MAX, U16_MIN).Center() == 32767.5
  {
  }

  /** The index of the first entry for bus id `id`, if any (`iter().find`). */
  function FirstIndexOf(servos: seq<ServoCalibration>, id: u8): (r: Option<nat>)
    ensures r.None? <==> forall k :: 0 <= k < |servos| ==> servos[k].id != id
    ensures r.Some? ==> r.value < |servos| && servos[r.value].id == id
    ensures r.Some? ==> forall k :: 0 <= k < r.value ==> servos[k].id != id
  {
    if servos == [] then None
    else if servos[0].id == id then Some(0)
    else
      match FirstIndexOf(servos[1..], id)
      case None => None
      case Some(k) => Some(k + 1)
  }

  /** Calibration data for all servos on a bus, in the order they were calibrated. */
  datatype CalibrationData = CalibrationData(servos: seq<ServoCalibration>)
  {
    /**
     * `center_for`: the center of the first entry with this bus id, `None`
     * when there is none. A later entry with the same id is never consulted.
     */
    function CenterFor(id: u8): (r: Option<real>)
      ensures r.None? <==> forall k :: 0 <= k < |servos| ==> servos[k].id != id
      ensures forall k ::
        (0 <= k < |servos| && servos[k].id == id && forall j :: 0 <= j < k ==> servos[j].id != id) ==>
          r == Some(servos[k].Center())
    {
      match FirstIndexOf(servos, id)
      case None => None
      case Some(k) => Some(servos[k].Center())
    }
  }

  /** Entries appended after one for `id` do not change what `center_for(id)` returns. */
  lemma {:induction false} LaterEntriesIgnored(servos: seq<ServoCalibration>, more: seq<ServoCalibration>, id: u8)
    requires CalibrationData(servos).CenterFor(id).Some?
    ensures CalibrationData(servos + more).CenterFor(id) == CalibrationData(servos).CenterFor(id)
  {
    var k := FirstIndexOf(servos, id).value;
    assert (servos + more)[k] == servos[k];
    assert forall j :: 0 <= j < k ==> (servos + more)[j] == servos[j];
  }

  /** With unique bus ids, `center_for` finds the entry for each id. */
  lemma UniqueIdsLookup(data: CalibrationData, k: nat)
    requires k < |data.servos|
    requires forall i, j :: 0 <= i < j < |data.servos| ==> data.servos[i].id != data.servos[j].id
    ensures data.CenterFor(data.servos[k].id) == Some(data.servos[k].Center())
  {
  }
}

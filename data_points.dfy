/** The data-point registry of the valve: the fixed numeric identifiers
    (`tuyaLocal.dataPoints`) under which the device reports and accepts
    each attribute. */
module DataPoints {
  import opened Wrappers

  datatype DataPoint = ZsMode | ZsHeatingSetpoint | ZsLocalTemp | ZsChildLock

  /** The wire identifier of a data point. */
  function Id(p: DataPoint): (id: nat)
    ensures id in {2, 16, 24, 40}
  {
    match p
    case ZsMode => 2
    case ZsHeatingSetpoint => 16
    case ZsLocalTemp => 24
    case ZsChildLock => 40
  }

  /** The data point a wire identifier names, if any: the dispatch of the
      decoder's outer `switch`. Unknown identifiers give `None`. */
  function Lookup(id: int): (r: Option<DataPoint>)
    ensures r.Some? ==> Id(r.value) == id
    ensures r.None? <==> id !in {2, 16, 24, 40}
  {
    if id == 2 then Some(ZsMode)
    else if id == 16 then Some(ZsHeatingSetpoint)
    else if id == 24 then Some(ZsLocalTemp)
    else if id == 40 then Some(ZsChildLock)
    else None
  }

  /** Every data point is found again under its own identifier, so no two
      data points share an identifier. */
  lemma LookupId(p: DataPoint)
    ensures Lookup(Id(p)) == Some(p)
    ensures forall q :: Id(q) == Id(p) ==> q == p
  {
  }
}

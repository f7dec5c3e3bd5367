/** The clinical data model of a CCTA report: patient, study, global metrics,
    vessels and their segments, and the optional one-level prior study.
    Also holds the two ways the components look a segment up by its id. */
module Types {

  datatype Option<+T> = None | Some(value: T)

  datatype Dominance = Right | Left | Co
  datatype QualityFlag = Motion | Blooming | Stent | HeavyCa | LimitedCoverage
  datatype Sex = M | F | X

  /** The four high-risk plaque feature tags. */
  datatype HRPFeature = LAP | PR | SC | NRS {
    function Name(): (s: string)
      ensures |s| == 2 || |s| == 3
    {
      match this
      case LAP => "LAP"
      case PR => "PR"
      case SC => "SC"
      case NRS => "NRS"
    }
  }

  /** Vessel ids, including the synthesized whole-heart vessel. */
  datatype VesselId = RCA | LM_LAD | LCx | WHOLE_HEART

  datatype Patient = Patient(
    name: string, mrn: string, dob: string, sex: Sex, studyDate: string,
    scanner: string, dominance: Dominance, notes: Option<string>)

  datatype Study = Study(
    id: string, qualityFlags: Option<seq<QualityFlag>>, ffrctLowest: Option<real>,
    pcat_fai: map<VesselId, real>, eAT_volume_ml: Option<real>)

  datatype GlobalMetrics = GlobalMetrics(
    tpv_mm3: real, pav_pct: real, lap_pct: real, sis: real, cac_agatston: Option<real>)

  /** One anatomical segment. `ffrct` and `ffrct_pullback` are optional, so an
      absent FFRct is a different value from a measured 0. The source's
      interface declares no `hrp` field although every component reads
      `segment.hrp`; it is added here as a sequence of feature tags. */
  datatype Segment = Segment(
    segId: int, name: string, length_mm: real, plaque_length_mm: real,
    stenosis_pct: real, ri: real, ffrct: Option<real>, ffrct_pullback: Option<seq<real>>,
    lrnc_mm3: real, ncp_mm3: real, cp_mm3: real, pav_pct: real, lap_pct: real,
    hrp: seq<HRPFeature>)

  datatype Composition = Composition(lrnc_mm3: real, ncp_mm3: real, cp_mm3: real)

  datatype Vessel = Vessel(
    id: VesselId, length_mm: real, tpv_mm3: real, pav_pct: real, lap_pct: real,
    ri_max: real, composition: Composition, segments: seq<Segment>)

  /** `Omit<CctaReport, 'priorStudy'>`: a prior report has no prior of its own,
      so serial nesting is exactly one level deep by construction. */
  datatype PriorReport = PriorReport(
    patient: Patient, study: Study, global: GlobalMetrics, vessels: seq<Vessel>)

  datatype CctaReport = CctaReport(
    patient: Patient, study: Study, global: GlobalMetrics, vessels: seq<Vessel>,
    priorStudy: Option<PriorReport>)

  datatype PlaqueVolumeMode = LRNC_Volume | NCP_Volume | CP_Volume | TPV | PAV

  /** The map modes the anatomical diagram declares. At run time the mode
      is a string, and the diagram compares it against these texts. */
  datatype MapMode = Stenosis | FFRct | Composition | Lesions | Interactive | Systems {
    function Text(): (t: string)
      ensures t != []
    {
      match this
      case Stenosis => "Stenosis"
      case FFRct => "FFRct"
      case Composition => "Composition"
      case Lesions => "Lesions"
      case Interactive => "Interactive"
      case Systems => "Systems"
    }
  }

  /** `report.vessels.flatMap(v => v.segments)`. */
  function AllSegments(vessels: seq<Vessel>): (segs: seq<Segment>)
    ensures forall s :: s in segs <==> exists v :: v in vessels && s in v.segments
  {
    if vessels == [] then []
    else
      var rest := AllSegments(vessels[1..]);
      assert forall v :: v in vessels <==> v == vessels[0] || v in vessels[1..];
      vessels[0].segments + rest
  }

  /** Total plaque of a segment: the three sub-volumes added, never rounded. */
  function TotalPlaque(s: Segment): (t: real)
    ensures t - s.lrnc_mm3 - s.ncp_mm3 == s.cp_mm3
    ensures s.lrnc_mm3 >= 0.0 && s.ncp_mm3 >= 0.0 && s.cp_mm3 >= 0.0 ==>
              t >= s.lrnc_mm3 && t >= s.ncp_mm3 && t >= s.cp_mm3
  {
    s.lrnc_mm3 + s.ncp_mm3 + s.cp_mm3
  }

  /** `segments.find(s => s.segId === id)`: the FIRST segment with that id. */
  function FindSegment(segs: seq<Segment>, id: int): (r: Option<Segment>)
    ensures r.None? <==> forall i :: 0 <= i < |segs| ==> segs[i].segId != id
    ensures r.Some? ==> exists i :: 0 <= i < |segs| && segs[i] == r.value && segs[i].segId == id &&
                                    forall j :: 0 <= j < i ==> segs[j].segId != id
  {
    if segs == [] then None
    else if segs[0].segId == id then Some(segs[0])
    else
      var r := FindSegment(segs[1..], id);
      assert forall i :: 1 <= i < |segs| ==> segs[i] == segs[1..][i - 1];
      r
  }

  /** `new Map(segments.map(s => [s.segId, s]))`: a later segment with the same
      id overwrites an earlier one. */
  function IndexById(segs: seq<Segment>): (m: map<int, Segment>)
    ensures forall id :: id in m ==> m[id].segId == id
  {
    if segs == [] then map[]
    else IndexById(segs[..|segs| - 1])[segs[|segs| - 1].segId := segs[|segs| - 1]]
  }

  /** Every id of the list is a key of the index, and each key maps to the
      LAST segment of the list that carries it. */
  lemma {:induction false} IndexByIdLastWins(segs: seq<Segment>, i: nat)
    requires i < |segs|
    requires forall j :: i < j < |segs| ==> segs[j].segId != segs[i].segId
    ensures segs[i].segId in IndexById(segs)
    ensures IndexById(segs)[segs[i].segId] == segs[i]
  {
    if i < |segs| - 1 {
      var init := segs[..|segs| - 1];
      IndexByIdLastWins(init, i);
    }
  }

  /** The index has no key that no segment of the list carries. */
  lemma {:induction false} IndexByIdKeys(segs: seq<Segment>, id: int)
    requires id in IndexById(segs)
    ensures exists i :: 0 <= i < |segs| && segs[i].segId == id
  {
    if segs != [] && segs[|segs| - 1].segId != id {
      var init := segs[..|segs| - 1];
      IndexByIdKeys(init, id);
      var i :| 0 <= i < |init| && init[i].segId == id;
      assert segs[i] == init[i];
    }
  }
}

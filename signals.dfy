/**
 * The signal (siganio) registry: the closed set of risk levels, the display
 * record of each, its text rendering, and the table that holds one record per
 * level.
 */
module SignalRegistry {
  import opened Text

  /** The four risk levels; nothing can add a fifth. */
  datatype RiskLevel = Low | Medium | High | Info

  /** The value each enumeration member carries. */
  function Value(l: RiskLevel): (v: string)
    ensures v == "Low Risk" <==> l == Low
    ensures v == "Medium Risk" <==> l == Medium
    ensures v == "High Risk" <==> l == High
    ensures v == "Informational" <==> l == Info
  {
    match l
    case Low => "Low Risk"
    case Medium => "Medium Risk"
    case High => "High Risk"
    case Info => "Informational"
  }

  /** The members in declaration order, as iterating over the enumeration yields them. */
  const AllLevels: seq<RiskLevel> := [Low, Medium, High, Info]

  /** The enumeration is closed: exactly four members, in declaration order, each listed once. */
  lemma LevelsClosed()
    ensures |AllLevels| == 4
    ensures forall l: RiskLevel :: l in AllLevels
    ensures forall i, j :: 0 <= i < j < |AllLevels| ==> AllLevels[i] != AllLevels[j]
  {
    forall l: RiskLevel ensures l in AllLevels {
      match l
      case Low => assert AllLevels[0] == l;
      case Medium => assert AllLevels[1] == l;
      case High => assert AllLevels[2] == l;
      case Info => assert AllLevels[3] == l;
    }
  }

  /** No two members share a value, so none of them is an alias of another. */
  lemma ValuesDistinct(a: RiskLevel, b: RiskLevel)
    ensures Value(a) == Value(b) <==> a == b
  {
  }

  /** One visual security indicator; immutable once built. */
  datatype Signal = Signal(icon: string, color: string, meaning: string, riskLevel: RiskLevel)

  /** `str(signal)`: the icon, the colour in brackets, then the meaning. */
  function SignalStr(s: Signal): (r: string)
    ensures |r| == |s.icon| + |s.color| + |s.meaning| + 4
    ensures OccursAt(r, s.icon, 0)
    ensures OccursAt(r, " [", |s.icon|)
    ensures OccursAt(r, s.color, |s.icon| + 2)
    ensures OccursAt(r, "] ", |s.icon| + 2 + |s.color|)
    ensures OccursAt(r, s.meaning, |s.icon| + |s.color| + 4)
  {
    s.icon + " [" + s.color + "] " + s.meaning
  }

  /** The rendering of a signal contains its icon, its colour and its meaning. */
  lemma SignalStrContainsParts(s: Signal)
    ensures Contains(SignalStr(s), s.icon)
    ensures Contains(SignalStr(s), s.color)
    ensures Contains(SignalStr(s), s.meaning)
  {
  }

  // The four icons, as code points: a check mark, a warning sign followed by
  // the emoji variation selector, a red circle, and an information source
  // followed by the emoji variation selector.
  const CheckMark: string := "\U{2705}"
  const WarningSign: string := "\U{26A0}\U{FE0F}"
  const RedCircle: string := "\U{1F534}"
  const InformationSource: string := "\U{2139}\U{FE0F}"

  /** The `SIGNALS` table: the one record for each level. */
  function Signals(l: RiskLevel): (s: Signal)
    ensures s.riskLevel == l
    ensures |s.icon| > 0 && !IsAscii(s.icon[0])
    ensures forall i :: 0 <= i < |s.meaning| ==> IsAscii(s.meaning[i])
  {
    match l
    case Low => Signal(CheckMark, "Green", "Compliant / Low Risk", Low)
    case Medium => Signal(WarningSign, "Yellow", "Warning / Medium Risk", Medium)
    case High => Signal(RedCircle, "Red", "Critical / High Risk", High)
    case Info => Signal(InformationSource, "Blue", "Informational", Info)
  }

  /** Every level of the enumeration has an entry, and each entry refers back to its own key. */
  lemma EveryLevelHasItsSignal()
    ensures forall i :: 0 <= i < |AllLevels| ==> Signals(AllLevels[i]).riskLevel == AllLevels[i]
  {
  }

  /** Exactly one record per level: distinct levels have distinct records, four in all. */
  lemma OneSignalPerLevel()
    ensures forall a, b :: a != b ==> Signals(a) != Signals(b)
    ensures |set l | l in AllLevels :: Signals(l)| == 4
  {
    var all := set l | l in AllLevels :: Signals(l);
    assert all == {Signals(Low), Signals(Medium), Signals(High), Signals(Info)};
  }

  /** No two levels share an icon. */
  lemma IconsDistinct(a: RiskLevel, b: RiskLevel)
    ensures Signals(a).icon == Signals(b).icon <==> a == b
  {
  }

  /** Distinct levels render to distinct strings. */
  lemma RenderingsDistinct(a: RiskLevel, b: RiskLevel)
    ensures SignalStr(Signals(a)) == SignalStr(Signals(b)) <==> a == b
  {
  }

  /** No two levels share a colour. */
  lemma ColorsDistinct(a: RiskLevel, b: RiskLevel)
    ensures Signals(a).color == Signals(b).color <==> a == b
  {
  }

  /** The rendering of the Low signal, code point by code point. */
  lemma LowRendering()
    ensures SignalStr(Signals(Low)) == "\U{2705} [Green] Compliant / Low Risk"
  {
  }
}

/**
 * The provider-value normalisers used by the templates and the scheduler:
 * fixture status codes, their collapse into five coarse states, stage and
 * league types, and the two halves of a "home-away" score.
 */
module Transformers {
  import opened Wrappers
  import opened Text

  /** The canonical fixture states a provider status code is translated to. */
  datatype Status =
    | NotStarted | FtLive | HtBreak | FtFin | EtLive | PenLive | EtFin | MiscBreak | PenFin
    | Canceled | Postponed | Interrupted | Abandoned | Suspended | Awarded | Delayed | Tba
    | Walkoverd | Waiting | Deleted

  /** The name the templates and the database use for a canonical state. */
  function StatusName(s: Status): string {
    match s
    case NotStarted => "NOT_STARTED"
    case FtLive => "FT_LIVE"
    case HtBreak => "HT_BREAK"
    case FtFin => "FT_FIN"
    case EtLive => "ET_LIVE"
    case PenLive => "PEN_LIVE"
    case EtFin => "ET_FIN"
    case MiscBreak => "MISC_BREAK"
    case PenFin => "PEN_FIN"
    case Canceled => "CANCELED"
    case Postponed => "POSTPONED"
    case Interrupted => "INTERRUPTED"
    case Abandoned => "ABANDONED"
    case Suspended => "SUSPENDED"
    case Awarded => "AWARDED"
    case Delayed => "DELAYED"
    case Tba => "TBA"
    case Walkoverd => "WALKOVERD"
    case Waiting => "WAITING"
    case Deleted => "DELETED"
  }

  /** The five coarse states a canonical state collapses to. */
  datatype Collapsed = NotFin | InPlay | Fin | Unknown | Gone

  function CollapsedName(c: Collapsed): string {
    match c
    case NotFin => "NOT_FIN"
    case InPlay => "IN_PLAY"
    case Fin => "FIN"
    case Unknown => "UNKNOWN"
    case Gone => "DELETED"
  }

  /** `transformStatus`: a provider code to its canonical state; any other code throws. */
  function TransformStatus(code: string): (r: Result<Status, string>)
    ensures r.Err? ==> r.error == "Status key not found: " + code
  {
    match code
    case "NS" => Ok(NotStarted)
    case "LIVE" => Ok(FtLive)
    case "HT" => Ok(HtBreak)
    case "FT" => Ok(FtFin)
    case "FT_FIN" => Ok(FtFin)
    case "ET" => Ok(EtLive)
    case "PEN_LIVE" => Ok(PenLive)
    case "AET" => Ok(EtFin)
    case "BREAK" => Ok(MiscBreak)
    case "FT_PEN" => Ok(PenFin)
    case "CANCL" => Ok(Canceled)
    case "POSTP" => Ok(Postponed)
    case "INT" => Ok(Interrupted)
    case "ABAN" => Ok(Abandoned)
    case "SUSP" => Ok(Suspended)
    case "AWARDED" => Ok(Awarded)
    case "DELAYED" => Ok(Delayed)
    case "TBA" => Ok(Tba)
    case "WO" => Ok(Walkoverd)
    case "AU" => Ok(Waiting)
    case "Deleted" => Ok(Deleted)
    case _ => Err("Status key not found: " + code)
  }

  /** One provider code for each canonical state: the reference inverse of `TransformStatus`. */
  function CodeOf(s: Status): string {
    match s
    case NotStarted => "NS"
    case FtLive => "LIVE"
    case HtBreak => "HT"
    case FtFin => "FT_FIN"
    case EtLive => "ET"
    case PenLive => "PEN_LIVE"
    case EtFin => "AET"
    case MiscBreak => "BREAK"
    case PenFin => "FT_PEN"
    case Canceled => "CANCL"
    case Postponed => "POSTP"
    case Interrupted => "INT"
    case Abandoned => "ABAN"
    case Suspended => "SUSP"
    case Awarded => "AWARDED"
    case Delayed => "DELAYED"
    case Tba => "TBA"
    case Walkoverd => "WO"
    case Waiting => "AU"
    case Deleted => "Deleted"
  }

  /** Every canonical state is reached, and FT and FT_FIN are the only two codes sharing one. */
  lemma TransformStatusOnto(s: Status, a: string, b: string)
    ensures TransformStatus(CodeOf(s)) == Ok(s)
    ensures TransformStatus("FT") == TransformStatus("FT_FIN") == Ok(FtFin)
    ensures TransformStatus(a).Ok? && TransformStatus(a) == TransformStatus(b) ==>
      a == b || (a in {"FT", "FT_FIN"} && b in {"FT", "FT_FIN"})
  {
  }

  /** Codes are case sensitive: only the capitalised "Deleted" is accepted. */
  lemma TransformStatusCaseSensitive()
    ensures TransformStatus("Deleted") == Ok(Deleted)
    ensures TransformStatus("DELETED") == Err("Status key not found: DELETED")
    ensures TransformStatus("deleted").Err? && TransformStatus("ns").Err? && TransformStatus("").Err?
  {
    assert "Status key not found: " + "DELETED" == "Status key not found: DELETED";
  }

  /** `transformStatusDetail`: a canonical name to its coarse state; unknown names give undefined. */
  function TransformStatusDetail(name: string): (r: Option<Collapsed>)
    ensures r.None? ==> forall s: Status :: StatusName(s) != name
  {
    match name
    case "NOT_STARTED" => Some(NotFin)
    case "FT_LIVE" => Some(InPlay)
    case "HT_BREAK" => Some(InPlay)
    case "FT_FIN" => Some(Fin)
    case "ET_LIVE" => Some(InPlay)
    case "PEN_LIVE" => Some(InPlay)
    case "ET_FIN" => Some(Fin)
    case "MISC_BREAK" => Some(InPlay)
    case "PEN_FIN" => Some(Fin)
    case "CANCELED" => Some(NotFin)
    case "POSTPONED" => Some(NotFin)
    case "INTERRUPTED" => Some(InPlay)
    case "ABANDONED" => Some(NotFin)
    case "SUSPENDED" => Some(NotFin)
    case "AWARDED" => Some(Fin)
    case "DELAYED" => Some(NotFin)
    case "TBA" => Some(NotFin)
    case "WALKOVERD" => Some(Fin)
    case "WAITING" => Some(Unknown)
    case "DELETED" => Some(Gone)
    case _ => None
  }

  /** The collapse, stated per state: every canonical name is known, and the classes are these. */
  lemma CollapseClasses(s: Status)
    ensures TransformStatusDetail(StatusName(s)).Some?
    ensures TransformStatusDetail(StatusName(s)) == Some(NotFin) <==>
      s in {NotStarted, Canceled, Postponed, Abandoned, Suspended, Delayed, Tba}
    ensures TransformStatusDetail(StatusName(s)) == Some(InPlay) <==>
      s in {FtLive, HtBreak, EtLive, PenLive, MiscBreak, Interrupted}
    ensures TransformStatusDetail(StatusName(s)) == Some(Fin) <==>
      s in {FtFin, EtFin, PenFin, Awarded, Walkoverd}
    ensures TransformStatusDetail(StatusName(s)) == Some(Unknown) <==> s == Waiting
    ensures TransformStatusDetail(StatusName(s)) == Some(Gone) <==> s == Deleted
  {
  }

  /** `transformStatusComplete`: the code's canonical state, collapsed; unknown codes throw. */
  function TransformStatusComplete(code: string): (r: Result<Collapsed, string>)
    ensures r.Err? <==> TransformStatus(code).Err?
    ensures r.Err? ==> r.error == "Status key not found: " + code
    ensures r.Ok? ==> Some(r.value) == TransformStatusDetail(StatusName(TransformStatus(code).value))
  {
    match TransformStatus(code)
    case Err(e) => Err(e)
    case Ok(s) =>
      var detail := TransformStatusDetail(StatusName(s));
      assert detail.Some?;
      Ok(detail.value)
  }

  /** `transformStageType`: only "Group Stage" and "Qualifying" are recognised; everything else is a knock-out stage. */
  function TransformStageType(t: string): (r: string)
    ensures r == "GROUP" <==> t == "Group Stage"
    ensures r == "QUALIFYING" <==> t == "Qualifying"
    ensures r == "KNOCK_OUT" <==> t != "Group Stage" && t != "Qualifying"
  {
    match t
    case "Knock Out" => "KNOCK_OUT"
    case "Group Stage" => "GROUP"
    case "Qualifying" => "QUALIFYING"
    case _ => "KNOCK_OUT"
  }

  /** `transformLeagueType`: "cup_international" is renamed, every other type is upper-cased. */
  function TransformLeagueType(t: string): (r: string)
    ensures t == "cup_international" ==> r == "INTERNATIONAL_CUP"
    ensures t != "cup_international" ==> r == ToUpper(t)
    ensures forall i :: 0 <= i < |r| ==> !('a' <= r[i] <= 'z')
  {
    match t
    case "cup_international" => "INTERNATIONAL_CUP"
    case _ => ToUpper(t)
  }

  /** The two digit runs of a string matching `^(\d+)-(\d+)$`, or None. */
  function ScoreParts(result: string): (r: Option<(string, string)>)
    ensures r.Some? ==> result == r.value.0 + "-" + r.value.1
    ensures r.Some? ==> r.value.0 != [] && r.value.1 != [] && AllDigits(r.value.0) && AllDigits(r.value.1)
  {
    match IndexOf(result, '-')
    case None => None
    case Some(i) =>
      var home := result[..i];
      var away := result[i + 1..];
      if home != [] && away != [] && AllDigits(home) && AllDigits(away) then
        assert result == home + "-" + away;
        Some((home, away))
      else None
  }

  /** `extractHome`: the left number of a "home-away" score, or null. */
  function ExtractHome(result: string): Option<nat> {
    match ScoreParts(result)
    case None => None
    case Some((home, _)) => Some(DecimalValue(home))
  }

  /** `extractAway`: the right number of a "home-away" score, or null. */
  function ExtractAway(result: string): Option<nat> {
    match ScoreParts(result)
    case None => None
    case Some((_, away)) => Some(DecimalValue(away))
  }

  /** A score written as "h-a" reads back as home h and away a. */
  lemma ScoreRoundTrip(h: nat, a: nat)
    ensures ExtractHome(NatToString(h) + "-" + NatToString(a)) == Some(h)
    ensures ExtractAway(NatToString(h) + "-" + NatToString(a)) == Some(a)
  {
    var hs, as_ := NatToString(h), NatToString(a);
    var s := hs + "-" + as_;
    assert '-' !in hs;
    assert s[|hs|] == '-';
    assert s[..|hs|] == hs;
    assert IndexOf(s, '-') == Some(|hs|);
    assert s[|hs| + 1..] == as_;
  }

  /** Anything that is not digits, one dash, digits is rejected by both extractors. */
  lemma ScoreRejectsMalformed(result: string)
    requires '-' !in result || result[0] == '-' || result[|result| - 1] == '-'
    ensures ExtractHome(result).None? && ExtractAway(result).None?
  {
    match IndexOf(result, '-')
    case None =>
    case Some(i) =>
      if result[0] == '-' {
        assert i == 0;
      } else if result[|result| - 1] == '-' && i + 1 < |result| {
        assert result[i + 1..][|result| - i - 2] == '-';
      }
  }
}

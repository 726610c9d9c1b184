/** The two string enumerations of the tool (gisaid_cli/enums.py): the registry database a
    command targets, and how a submitter has confirmed frameshifts. */
module Enums {
  import opened Wrappers

  datatype Database = EpiCoV | EpiFlu | EpiRSV {
    /** The enum member's string value, sent as the request context `ctx`. */
    function Value(): string {
      match this
      case EpiCoV => "EpiCoV"
      case EpiFlu => "EpiFlu"
      case EpiRSV => "EpiRSV"
    }
  }

  datatype FrameshiftsConfirmation = CatchAll | CatchNovel | CatchNone {
    /** The enum member's string value, which is what a submission carries. */
    function Value(): string {
      match this
      case CatchAll => "none"
      case CatchNovel => "com"
      case CatchNone => "all"
    }
  }

  /** `FrameshiftsConfirmation(s)`: the member whose value is `s`, if any. */
  function ConfirmationFromValue(s: string): (r: Option<FrameshiftsConfirmation>)
    ensures r.Some? ==> r.value.Value() == s
    ensures r.None? <==> forall c: FrameshiftsConfirmation :: c.Value() != s
  {
    if s == "none" then Some(CatchAll)
    else if s == "com" then Some(CatchNovel)
    else if s == "all" then Some(CatchNone)
    else None
  }

  /** Every member is recovered from its value, so values are distinct. */
  lemma ConfirmationValueRoundTrip(c: FrameshiftsConfirmation)
    ensures ConfirmationFromValue(c.Value()) == Some(c)
  {
  }

  /** Distinct databases send distinct contexts. */
  lemma DatabaseValueInjective(d: Database, e: Database)
    ensures d.Value() == e.Value() ==> d == e
  {
  }
}

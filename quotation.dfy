/**
  The cost calculator of src/pages/Quotation.tsx: the guard on the form,
  the base-rate table, the floor multiplier, and the request saved with the
  estimate. Amounts are exact reals; the page's JavaScript numbers are
  binary floating point.
 */
module Quotation {
  import opened Common
  import opened JsNumber
  import opened Leads

  datatype QuotationForm = QuotationForm(projectType: string, area: string, floors: string, location: string, quality: string)

  datatype Toast =
    | MissingDetails
    | EstimateReady
    | UnableToSave(message: string)

  const EmptyForm := QuotationForm("", "", "", "", "")

  /** The rate used when the type and quality pair is not in the table. */
  const FallbackRate := 1500

  /** The table of base rates per square foot, by project type and quality. */
  function TableRate(projectType: string, quality: string): Option<nat>
  {
    match (projectType, quality)
    case ("residential", "standard") => Some(1500)
    case ("residential", "premium") => Some(2500)
    case ("residential", "luxury") => Some(4000)
    case ("commercial", "standard") => Some(2000)
    case ("commercial", "premium") => Some(3000)
    case ("commercial", "luxury") => Some(5000)
    case ("industrial", "standard") => Some(1200)
    case ("industrial", "premium") => Some(2000)
    case ("industrial", "luxury") => Some(3500)
    case ("infrastructure", "standard") => Some(1800)
    case ("infrastructure", "premium") => Some(2800)
    case ("infrastructure", "luxury") => Some(4500)
    case _ => None
  }

  /** `baseRates[type]?.[quality] || 1500`. */
  function Rate(projectType: string, quality: string): nat
  {
    var r := TableRate(projectType, quality);
    if r.Some? && r.value != 0 then r.value else FallbackRate
  }

  /** 15% more for each floor beyond the first. */
  function FloorMultiplier(floors: int): real
  {
    1.0 + (floors - 1) as real * 0.15
  }

  function Total(area: real, rate: nat, floors: int): real
  {
    area * rate as real * FloorMultiplier(floors)
  }

  /**
    The request the page computes from the form: none when the area or the
    floor count is NaN or zero, or the type or quality is empty; otherwise the
    form with the parsed numbers and the estimate.
   */
  function Quote(f: QuotationForm): (q: Option<QuotationRequestPayload>)
    ensures q.Some? ==> && ParseFloat(f.area) == Some(q.value.area) && q.value.area != 0.0
                         && ParseInt(f.floors) == Some(q.value.floors) && q.value.floors != 0
                         && q.value.projectType == f.projectType != ""
                         && q.value.quality == f.quality != ""
                         && q.value.location == f.location
                         && q.value.estimate == Total(q.value.area, Rate(f.projectType, f.quality), q.value.floors)
  {
    var area := ParseFloat(f.area);
    var floors := ParseInt(f.floors);
    if area.None? || area.value == 0.0 || floors.None? || floors.value == 0 || f.projectType == "" || f.quality == "" then None
    else
      Some(QuotationRequestPayload(f.projectType, area.value, floors.value, f.location, f.quality,
        Total(area.value, Rate(f.projectType, f.quality), floors.value)))
  }

  class QuotationPage {
    var form: QuotationForm
    var estimate: Option<real>

    constructor ()
      ensures form == EmptyForm && estimate.None?
    {
      form := EmptyForm;
      estimate := None;
    }

    /**
      `calculateEstimate()`: an incomplete form only raises a toast; otherwise
      the estimate is shown first and then the request saved. A failed save
      (`saveError`, the message the store threw) keeps the estimate on screen.
     */
    method CalculateEstimate(leads: LeadRecorder, saveError: Option<string>) returns (toast: Toast)
      requires leads.Valid()
      modifies this, leads
      ensures leads.Valid() && form == old(form)
      ensures leads.contactLeads == old(leads.contactLeads)
      ensures Quote(form).None? ==>
        toast == MissingDetails && estimate == old(estimate) && leads.quotationRequests == old(leads.quotationRequests)
      ensures Quote(form).Some? ==> estimate == Some(Quote(form).value.estimate)
      ensures Quote(form).Some? && saveError.None? ==>
        && toast == EstimateReady
        && leads.quotationRequests == old(leads.quotationRequests) + [Stamped(Quote(form).value, old(leads.now))]
      ensures Quote(form).Some? && saveError.Some? ==>
        toast == UnableToSave(OrElse(saveError.value, "Please try again."))
        && leads.quotationRequests == old(leads.quotationRequests)
    {
      var request := Quote(form);
      if request.None? {
        return MissingDetails;
      }
      estimate := Some(request.value.estimate);
      if saveError.None? {
        leads.SaveQuotationRequest(request.value);
        toast := EstimateReady;
      } else {
        toast := UnableToSave(OrElse(saveError.value, "Please try again."));
      }
    }
  }

  /** Every rate is positive, and a pair missing from the table gets 1500. */
  lemma RateMeaning(projectType: string, quality: string)
    ensures Rate(projectType, quality) > 0
    ensures TableRate(projectType, quality).None? ==> Rate(projectType, quality) == FallbackRate
    ensures TableRate(projectType, quality).Some? ==> Rate(projectType, quality) == TableRate(projectType, quality).value
    ensures 1200 <= Rate(projectType, quality) <= 5000
  {
  }

  const ProjectTypes := {"residential", "commercial", "industrial", "infrastructure"}
  const Qualities := {"standard", "premium", "luxury"}

  /**
    The table holds a rate for exactly the twelve pairs of a known type and a
    known quality, keyed by the exact strings; every other pair, a
    capitalised or empty key included, falls back to 1500.
   */
  lemma UnknownPairsFallBack(projectType: string, quality: string)
    ensures TableRate(projectType, quality).Some? <==> projectType in ProjectTypes && quality in Qualities
    ensures !(projectType in ProjectTypes && quality in Qualities) ==> Rate(projectType, quality) == FallbackRate
  {
  }

  /** One floor costs area times rate; each further floor adds 15% of that. */
  lemma FloorsMeaning(area: real, rate: nat, floors: int)
    ensures Total(area, rate, 1) == area * rate as real
    ensures Total(area, rate, floors + 1) - Total(area, rate, floors) == area * rate as real * 0.15
  {
    assert FloorMultiplier(floors + 1) == FloorMultiplier(floors) + 0.15;
  }

  /**
    A form whose area and floors are typed as positive whole numbers and whose
    type and quality are chosen always yields a request, with the typed
    numbers read back exactly.
   */
  lemma WholeNumbersQuote(f: QuotationForm, area: nat, floors: nat)
    requires area > 0 && floors > 0 && f.projectType != "" && f.quality != ""
    requires f.area == Decimal(area) && f.floors == Decimal(floors)
    ensures Quote(f).Some?
    ensures Quote(f).value.area == area as real && Quote(f).value.floors == floors
    ensures Quote(f).value.estimate == Total(area as real, Rate(f.projectType, f.quality), floors)
  {
    ParseFloatOfDecimal(area);
    ParseIntOfDecimal(floors, []);
    assert Decimal(floors) + [] == Decimal(floors);
    QuoteOfParsed(f, area as real, floors);
  }

  /** The request built from a form whose two numbers parse to non-zero values. */
  lemma QuoteOfParsed(f: QuotationForm, area: real, floors: int)
    requires ParseFloat(f.area) == Some(area) && area != 0.0
    requires ParseInt(f.floors) == Some(floors) && floors != 0
    requires f.projectType != "" && f.quality != ""
    ensures Quote(f) == Some(QuotationRequestPayload(f.projectType, area, floors, f.location, f.quality,
      Total(area, Rate(f.projectType, f.quality), floors)))
  {
  }

  /** A blank area, or an area of zero, stops the calculation. */
  lemma ZeroOrBlankAreaRefused(f: QuotationForm)
    requires f.area == "" || f.area == "0"
    ensures Quote(f).None?
  {
    if f.area == "0" {
      assert Decimal(0) == "0";
      ParseFloatOfDecimal(0);
    } else {
      assert TrimStart(f.area) == "" && DigitPrefix("") == "";
      assert ParseFloat(f.area).None?;
    }
  }
}

/**
 * The string unions of the data model, as datatypes. The store keeps them as
 * their string names; `Name` and `Parse` convert in both directions.
 */
module Domain {
  import opened Wrappers

  /** Where an investor record came from. */
  datatype InvestorSource = AiFound | Manual
  {
    function Name(): string
    {
      match this
      case AiFound => "ai_found"
      case Manual => "manual"
    }
  }

  /** The research lifecycle of an investor. */
  datatype ResearchStatus = Pending | Researching | Completed | Failed
  {
    function Name(): string
    {
      match this
      case Pending => "pending"
      case Researching => "researching"
      case Completed => "completed"
      case Failed => "failed"
    }
  }

  /** The lifecycle of an outreach email. */
  datatype EmailStatus = Draft | Approved | Sending | Sent | SendFailed
  {
    function Name(): string
    {
      match this
      case Draft => "draft"
      case Approved => "approved"
      case Sending => "sending"
      case Sent => "sent"
      case SendFailed => "failed"
    }
  }

  /** The kinds of public activity research may report. */
  datatype ActivityKind = Tweet | LinkedIn | Podcast | Blog | Interview
  {
    function Name(): string
    {
      match this
      case Tweet => "tweet"
      case LinkedIn => "linkedin"
      case Podcast => "podcast"
      case Blog => "blog"
      case Interview => "interview"
    }
  }

  function ParseInvestorSource(s: string): (r: Option<InvestorSource>)
    ensures r.Some? ==> r.value.Name() == s
  {
    if s == "ai_found" then Some(AiFound) else if s == "manual" then Some(Manual) else None
  }

  function ParseResearchStatus(s: string): (r: Option<ResearchStatus>)
    ensures r.Some? ==> r.value.Name() == s
  {
    if s == "pending" then Some(Pending)
    else if s == "researching" then Some(Researching)
    else if s == "completed" then Some(Completed)
    else if s == "failed" then Some(Failed)
    else None
  }

  function ParseEmailStatus(s: string): (r: Option<EmailStatus>)
    ensures r.Some? ==> r.value.Name() == s
  {
    if s == "draft" then Some(Draft)
    else if s == "approved" then Some(Approved)
    else if s == "sending" then Some(Sending)
    else if s == "sent" then Some(Sent)
    else if s == "failed" then Some(SendFailed)
    else None
  }

  function ParseActivityKind(s: string): (r: Option<ActivityKind>)
    ensures r.Some? ==> r.value.Name() == s
  {
    if s == "tweet" then Some(Tweet)
    else if s == "linkedin" then Some(LinkedIn)
    else if s == "podcast" then Some(Podcast)
    else if s == "blog" then Some(Blog)
    else if s == "interview" then Some(Interview)
    else None
  }

  /** Every stored name reads back as the value that wrote it, so distinct values have distinct names. */
  lemma NamesRoundTrip(src: InvestorSource, rs: ResearchStatus, es: EmailStatus, ak: ActivityKind)
    ensures ParseInvestorSource(src.Name()) == Some(src)
    ensures ParseResearchStatus(rs.Name()) == Some(rs)
    ensures ParseEmailStatus(es.Name()) == Some(es)
    ensures ParseActivityKind(ak.Name()) == Some(ak)
  {
  }
}

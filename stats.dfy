/**
 * The dashboard statistics endpoint (app/api/stats/route.ts): how many
 * investors and how many sent emails the signed-in user has. Investors and
 * emails belong either to a campaign of one of the user's projects, or
 * (the older layout) directly to one of the user's projects with no
 * campaign. Each total adds the two kinds, so no row is counted twice.
 *
 * The database is a set of in-memory tables; each query that can fail has a
 * flag saying whether it did.
 */
module Stats {
  import opened Wrappers
  import opened Domain

  datatype ProjectRow = ProjectRow(id: string, userId: string)
  datatype CampaignRow = CampaignRow(id: string, projectId: string)
  datatype InvestorRow = InvestorRow(id: string, projectId: Option<string>, campaignId: Option<string>)
  datatype EmailRow = EmailRow(id: string, projectId: Option<string>, campaignId: Option<string>, status: EmailStatus)

  datatype Tables = Tables(projects: seq<ProjectRow>, campaigns: seq<CampaignRow>,
                           investors: seq<InvestorRow>, emails: seq<EmailRow>)

  /** Which of the queries report an error (or, for the counts, a null count). */
  datatype Failures = Failures(projects: bool, campaigns: bool, campaignInvestors: bool,
                               projectInvestors: bool, campaignEmails: bool, projectEmails: bool)

  const NoFailures := Failures(false, false, false, false, false, false)

  /** The answer: 401, 500 with a message, or the two totals. */
  datatype StatsResponse = Unauthorized | ServerError(message: string) | Totals(investors: nat, emailsSent: nat)

  const ProjectsError: string := "Failed to fetch projects"

  // ---------------------------------------------------------------------------
  // Counting.

  /** The number of entries of `xs` that satisfy `p` (a `count: 'exact'` query). */
  function Count<T>(xs: seq<T>, p: T -> bool): (n: nat)
    ensures n <= |xs|
  {
    if xs == [] then 0 else (if p(xs[0]) then 1 else 0) + Count(xs[1..], p)
  }

  lemma {:induction false} CountNone<T>(xs: seq<T>, p: T -> bool)
    requires forall i :: 0 <= i < |xs| ==> !p(xs[i])
    ensures Count(xs, p) == 0
    decreases |xs|
  {
    if xs != [] {
      CountNone(xs[1..], p);
    }
  }

  /** Counting two conditions that never hold together is counting their disjunction: nothing is counted twice. */
  lemma {:induction false} CountDisjointUnion<T>(xs: seq<T>, p: T -> bool, q: T -> bool, either: T -> bool)
    requires forall i :: 0 <= i < |xs| ==> !(p(xs[i]) && q(xs[i]))
    requires forall i :: 0 <= i < |xs| ==> (either(xs[i]) <==> p(xs[i]) || q(xs[i]))
    ensures Count(xs, p) + Count(xs, q) == Count(xs, either)
    decreases |xs|
  {
    if xs != [] {
      CountDisjointUnion(xs[1..], p, q, either);
    }
  }

  // ---------------------------------------------------------------------------
  // The rows that belong to a user.

  /** `projects.map(p => p.id)` for the user's projects, in table order. */
  function ProjectIds(projects: seq<ProjectRow>, user: string): (ids: seq<string>)
    ensures forall id :: id in ids <==> exists i :: 0 <= i < |projects| && projects[i].userId == user && projects[i].id == id
  {
    if projects == [] then []
    else (if projects[0].userId == user then [projects[0].id] else []) + ProjectIds(projects[1..], user)
  }

  /** The ids of the campaigns of the given projects. */
  function CampaignIds(campaigns: seq<CampaignRow>, projectIds: seq<string>): (ids: seq<string>)
    ensures forall id :: id in ids <==> exists i :: 0 <= i < |campaigns| && campaigns[i].projectId in projectIds && campaigns[i].id == id
    ensures projectIds == [] ==> ids == []
  {
    if campaigns == [] then []
    else (if campaigns[0].projectId in projectIds then [campaigns[0].id] else []) + CampaignIds(campaigns[1..], projectIds)
  }

  /** The campaign id of a row is one of `campaignIds`. */
  predicate InCampaigns(campaignId: Option<string>, campaignIds: seq<string>)
  {
    campaignId.Some? && campaignId.value in campaignIds
  }

  /** A row of the older layout: no campaign, and one of `projectIds` as its project. */
  predicate Legacy(projectId: Option<string>, campaignId: Option<string>, projectIds: seq<string>)
  {
    campaignId.None? && projectId.Some? && projectId.value in projectIds
  }

  /** The investors of the campaign-based count (`.in('campaign_id', campaignIds)`). */
  function CampaignInvestor(campaignIds: seq<string>): InvestorRow -> bool
  {
    (r: InvestorRow) => InCampaigns(r.campaignId, campaignIds)
  }

  /** The investors of the project-based count (`.in('project_id', projectIds).is('campaign_id', null)`). */
  function LegacyInvestor(projectIds: seq<string>): InvestorRow -> bool
  {
    (r: InvestorRow) => Legacy(r.projectId, r.campaignId, projectIds)
  }

  /** The emails of the campaign-based sent count. */
  function CampaignSentEmail(campaignIds: seq<string>): EmailRow -> bool
  {
    (r: EmailRow) => r.status == Sent && InCampaigns(r.campaignId, campaignIds)
  }

  /** The emails of the project-based sent count. */
  function LegacySentEmail(projectIds: seq<string>): EmailRow -> bool
  {
    (r: EmailRow) => r.status == Sent && Legacy(r.projectId, r.campaignId, projectIds)
  }

  function CampaignInvestors(investors: seq<InvestorRow>, campaignIds: seq<string>): nat
  {
    Count(investors, CampaignInvestor(campaignIds))
  }

  function LegacyInvestors(investors: seq<InvestorRow>, projectIds: seq<string>): nat
  {
    Count(investors, LegacyInvestor(projectIds))
  }

  function CampaignSentEmails(emails: seq<EmailRow>, campaignIds: seq<string>): nat
  {
    Count(emails, CampaignSentEmail(campaignIds))
  }

  function LegacySentEmails(emails: seq<EmailRow>, projectIds: seq<string>): nat
  {
    Count(emails, LegacySentEmail(projectIds))
  }

  /** The user's campaign ids as the endpoint sees them: none when the campaigns query failed. */
  function UserCampaignIds(t: Tables, user: string, f: Failures): seq<string>
  {
    if f.campaigns then [] else CampaignIds(t.campaigns, ProjectIds(t.projects, user))
  }

  /** The investor total: each of the two counts, or 0 where its query failed. */
  function InvestorTotal(t: Tables, user: string, f: Failures): nat
  {
    var projectIds := ProjectIds(t.projects, user);
    (if f.campaignInvestors then 0 else CampaignInvestors(t.investors, UserCampaignIds(t, user, f)))
    + (if f.projectInvestors then 0 else LegacyInvestors(t.investors, projectIds))
  }

  /** The sent-email total: each of the two counts, or 0 where its query failed. */
  function EmailsSentTotal(t: Tables, user: string, f: Failures): nat
  {
    var projectIds := ProjectIds(t.projects, user);
    (if f.campaignEmails then 0 else CampaignSentEmails(t.emails, UserCampaignIds(t, user, f)))
    + (if f.projectEmails then 0 else LegacySentEmails(t.emails, projectIds))
  }

  // ---------------------------------------------------------------------------
  // The endpoint.

  /**
   * `GET /api/stats`: 401 without a user, 500 when the projects query fails,
   * and otherwise the two totals, where a failing sub-query contributes 0.
   * A count query runs only when there is something to look for: campaign
   * counts only with some campaign ids, project counts only with some
   * project ids.
   */
  method GetStats(t: Tables, user: Option<string>, f: Failures) returns (r: StatsResponse)
    ensures user.None? <==> r == Unauthorized
    ensures user.Some? && f.projects <==> r == ServerError(ProjectsError)
    ensures user.Some? && !f.projects ==>
      r == Totals(InvestorTotal(t, user.value, f), EmailsSentTotal(t, user.value, f))
  {
    if user.None? {
      return Unauthorized;
    }
    if f.projects {
      return ServerError(ProjectsError);
    }
    var projectIds := ProjectIds(t.projects, user.value);
    var campaignIds: seq<string> := [];
    if |projectIds| > 0 {
      if !f.campaigns {
        campaignIds := CampaignIds(t.campaigns, projectIds);
      }
    }
    assert campaignIds == UserCampaignIds(t, user.value, f);

    var investorCount := 0;
    if |campaignIds| > 0 {
      if !f.campaignInvestors {
        investorCount := investorCount + CampaignInvestors(t.investors, campaignIds);
      }
    } else {
      CountNone(t.investors, CampaignInvestor(campaignIds));
    }
    if |projectIds| > 0 {
      if !f.projectInvestors {
        investorCount := investorCount + LegacyInvestors(t.investors, projectIds);
      }
    } else {
      CountNone(t.investors, LegacyInvestor(projectIds));
    }

    var emailsSentCount := 0;
    if |campaignIds| > 0 {
      if !f.campaignEmails {
        emailsSentCount := emailsSentCount + CampaignSentEmails(t.emails, campaignIds);
      }
    } else {
      CountNone(t.emails, CampaignSentEmail(campaignIds));
    }
    if |projectIds| > 0 {
      if !f.projectEmails {
        emailsSentCount := emailsSentCount + LegacySentEmails(t.emails, projectIds);
      }
    } else {
      CountNone(t.emails, LegacySentEmail(projectIds));
    }
    return Totals(investorCount, emailsSentCount);
  }

  // ---------------------------------------------------------------------------
  // What the totals mean.

  /** An investor belongs to the user through one of the user's campaigns, or directly through a project with no campaign. */
  function UserInvestor(t: Tables, user: string): InvestorRow -> bool
  {
    var projectIds := ProjectIds(t.projects, user);
    var campaignIds := CampaignIds(t.campaigns, projectIds);
    (r: InvestorRow) => InCampaigns(r.campaignId, campaignIds) || Legacy(r.projectId, r.campaignId, projectIds)
  }

  /** An email counts when it was sent and belongs to the user in either way. */
  function UserSentEmail(t: Tables, user: string): EmailRow -> bool
  {
    var projectIds := ProjectIds(t.projects, user);
    var campaignIds := CampaignIds(t.campaigns, projectIds);
    (r: EmailRow) => r.status == Sent && (InCampaigns(r.campaignId, campaignIds) || Legacy(r.projectId, r.campaignId, projectIds))
  }

  /**
   * With every query succeeding, the investor total is the number of the
   * user's investors, each counted once: a campaign investor has a campaign,
   * a project investor has none, so no row is in both counts.
   */
  lemma InvestorTotalCountsEachOnce(t: Tables, user: string)
    ensures InvestorTotal(t, user, NoFailures) == Count(t.investors, UserInvestor(t, user))
  {
    var projectIds := ProjectIds(t.projects, user);
    var campaignIds := CampaignIds(t.campaigns, projectIds);
    CountDisjointUnion(t.investors, CampaignInvestor(campaignIds), LegacyInvestor(projectIds), UserInvestor(t, user));
  }

  /** With every query succeeding, the sent total is the number of the user's sent emails, each counted once. */
  lemma EmailsSentTotalCountsEachOnce(t: Tables, user: string)
    ensures EmailsSentTotal(t, user, NoFailures) == Count(t.emails, UserSentEmail(t, user))
  {
    var projectIds := ProjectIds(t.projects, user);
    var campaignIds := CampaignIds(t.campaigns, projectIds);
    CountDisjointUnion(t.emails, CampaignSentEmail(campaignIds), LegacySentEmail(projectIds), UserSentEmail(t, user));
  }

  /** A failing query can only lower a total, never raise it. */
  lemma FailuresOnlyLower(t: Tables, user: string, f: Failures)
    ensures InvestorTotal(t, user, f) <= InvestorTotal(t, user, NoFailures)
    ensures EmailsSentTotal(t, user, f) <= EmailsSentTotal(t, user, NoFailures)
  {
    var campaignIds := CampaignIds(t.campaigns, ProjectIds(t.projects, user));
    if f.campaigns {
      CountNone(t.investors, CampaignInvestor([]));
      CountNone(t.emails, CampaignSentEmail([]));
    }
  }

  /** A user without projects has no campaigns, and both totals are 0 whatever else fails. */
  lemma NoProjectsNoTotals(t: Tables, user: string, f: Failures)
    requires ProjectIds(t.projects, user) == []
    ensures InvestorTotal(t, user, f) == 0 && EmailsSentTotal(t, user, f) == 0
  {
    CountNone(t.investors, CampaignInvestor([]));
    CountNone(t.investors, LegacyInvestor([]));
    CountNone(t.emails, CampaignSentEmail([]));
    CountNone(t.emails, LegacySentEmail([]));
  }
}

// The webhook callbacks: each filters, deduplicates and enqueues, and leaves the work to the worker.
module App {
  import opened Wrappers
  import opened Pipeline
  import opened JobQueue
  import opened Orchestration
  import opened MemoryStore
  import opened Branch
  import Setup

  class WebhookApp {
    const store: InMemoryStore
    const pages: Setup.SetupPages

    constructor (store: InMemoryStore, pages: Setup.SetupPages)
      ensures this.store == store && this.pages == pages
    {
      this.store := store;
      this.pages := pages;
    }

    // The reply joins what the run was told, and the gate's job is enqueued with it.
    method EnqueueReply(key: RunKey, kind: JobKind, body: string)
      requires key in store.runs
      modifies store
      ensures store.Contents() == Reply(old(store.Contents()), key, kind, body)
    {
      store.PutRun(key, Hear(store.runs[key], body));
      var _ := store.EnqueueJob(key, kind, body);
    }

    // The credential is forgotten with the first delivery only: if that purge throws, a redelivery does not
    // make up for it.
    method OnInstallationDeleted(deliveryId: string, installation: int, purges: bool)
      requires pages.Valid()
      modifies store, pages
      ensures store.Contents() == Deliver(old(store.Contents()), Uninstalled(deliveryId))
      ensures pages.Valid()
      ensures pages.vault ==
        if purges && deliveryId !in old(store.processedEvents) then old(pages.vault) - {installation} else old(pages.vault)
    {
      MarkedAgain(old(store.Contents()), deliveryId);
      var first := store.TryMarkEventProcessed(deliveryId);
      if !first || !purges { return; }
      pages.Purge(installation);
    }

    lemma MarkedAgain(w: World, deliveryId: string)
      ensures deliveryId in w.processed ==> w.processed + {deliveryId} == w.processed
    {
    }

    method OnIssueOpened(deliveryId: string, installation: Option<int>, owner: string, repo: string, issue: nat)
      modifies store
      ensures store.Contents() == Deliver(old(store.Contents()), Opened(deliveryId, installation, owner, repo, issue))
    {
      if installation.None? { return; }
      MarkedAgain(store.Contents(), deliveryId);
      var first := store.TryMarkEventProcessed(deliveryId);
      if !first { return; }
      var _ := store.EnqueueJob(RunKey(installation.value, owner, repo, issue), IssueOpened, "");
    }

    // The reply goes to whichever gate the run is parked at, and otherwise nowhere.
    method OnIssueComment(deliveryId: string, installation: Option<int>, owner: string, repo: string, issue: nat,
                          fromBot: bool, body: Option<string>)
      modifies store
      ensures store.Contents() ==
        Deliver(old(store.Contents()), IssueCommented(deliveryId, installation, owner, repo, issue, fromBot, body))
    {
      hide IssueNumberFromBranch, Reply;
      if fromBot || installation.None? { return; }
      MarkedAgain(store.Contents(), deliveryId);
      var first := store.TryMarkEventProcessed(deliveryId);
      if !first { return; }
      var key := RunKey(installation.value, owner, repo, issue);
      if key !in store.runs { return; }
      var state := store.runs[key].state;
      if state == AwaitingClarification {
        EnqueueReply(key, ResumeClarification, body.GetOr(""));
      } else if state == AwaitingPlanApproval {
        EnqueueReply(key, ResumePlanDecision, body.GetOr(""));
      } else if state == AwaitingImplHelp {
        EnqueueReply(key, ResumeImplementation, body.GetOr(""));
      }
    }

    // A review on a pull request is for the run whose branch it is, if that run is waiting for one.
    method EnqueueFix(key: Option<RunKey>, body: Option<string>)
      modifies store
      ensures store.Contents() == RouteReview(old(store.Contents()), key, body.GetOr(""))
    {
      if key.Some? && key.value in store.runs && store.runs[key.value].state == AwaitingPrReview {
        EnqueueReply(key.value, Fix, body.GetOr(""));
      }
    }

    method OnReviewComment(deliveryId: string, installation: Option<int>, owner: string, repo: string, branch: string,
                           fromBot: bool, body: Option<string>)
      modifies store
      ensures store.Contents() ==
        Deliver(old(store.Contents()), ReviewCommented(deliveryId, installation, owner, repo, branch, fromBot, body))
    {
      hide RouteReview, IssueNumberFromBranch;
      if fromBot { return; }
      var issue := IssueNumberFromBranch(branch);
      if issue.None? || installation.None? { return; }
      MarkedAgain(store.Contents(), deliveryId);
      var first := store.TryMarkEventProcessed(deliveryId);
      if !first { return; }
      EnqueueFix(BranchKey(installation.value, owner, repo, issue.value), body);
    }

    method OnReviewSubmitted(deliveryId: string, installation: Option<int>, owner: string, repo: string, branch: string,
                             fromBot: bool, body: Option<string>, changesRequested: bool)
      modifies store
      ensures store.Contents() ==
        Deliver(old(store.Contents()),
                ReviewSubmitted(deliveryId, installation, owner, repo, branch, fromBot, body, changesRequested))
    {
      hide RouteReview, IssueNumberFromBranch;
      if !changesRequested || fromBot { return; }
      var issue := IssueNumberFromBranch(branch);
      if issue.None? || installation.None? { return; }
      MarkedAgain(store.Contents(), deliveryId);
      var first := store.TryMarkEventProcessed(deliveryId);
      if !first { return; }
      EnqueueFix(BranchKey(installation.value, owner, repo, issue.value), body);
    }
  }
}

/** Servers that are gone for good: what ends with them, and that nothing brings them back. */
module BrokerGone {
  import opened Ledger
  import opened Messages
  import opened Options
  import opened BrokerState
  import opened BrokerSteps
  import opened BrokerClosing

  ghost predicate Unnamed(table: map<string, nat>, b: nat) {
    forall t :: t in table ==> table[t] != b
  }

  ghost predicate Unasked(replies: map<Id, Asked>, b: nat) {
    forall id :: id in replies ==> replies[id].owner != b
  }

  /** The server is closed, nothing waits there, and no thread, turn or question belongs to it. */
  ghost predicate Gone(s: State, b: nat) {
    && b < |s.backends| && !s.backends[b].live && s.backends[b].queue == []
    && Unnamed(s.threads, b) && Unnamed(s.activeTurns, b) && Unasked(s.replies, b)
  }

  lemma LiveIsNotGone(s: State, b: nat)
    requires b < |s.backends| && s.backends[b].live
    ensures !Gone(s, b)
  {
  }

  /** Closed servers stay closed. */
  ghost predicate StayClosed(before: seq<Backend>, after: seq<Backend>) {
    && |before| <= |after|
    && forall b :: 0 <= b < |before| && !before[b].live ==> !after[b].live
  }

  /** Servers that are gone stay gone. */
  ghost predicate Rests(s: State, t: State) {
    StayClosed(s.backends, t.backends) && forall b :: Gone(s, b) ==> Gone(t, b)
  }

  /** All servers but one that are gone stay gone. */
  ghost predicate RestsBut(s: State, t: State, speaker: nat) {
    StayClosed(s.backends, t.backends) && forall b :: Gone(s, b) && b != speaker ==> Gone(t, b)
  }

  lemma SameRest(s: State, t: State)
    requires t.backends == s.backends && t.threads == s.threads && t.activeTurns == s.activeTurns
    requires forall id :: id in t.replies ==> id in s.replies && t.replies[id] == s.replies[id]
    ensures Rests(s, t)
  {
  }

  lemma RestsMore(s: State, t: State, u: State)
    requires Rests(s, t) && Rests(t, u)
    ensures Rests(s, u)
  {
    hide Gone;
  }

  lemma QueuedRests(s: State, b: nat, m: Message)
    requires b < |s.backends| && !Gone(s, b)
    ensures Rests(s, QueuedAt(s, b, m))
  {
  }

  lemma ShutRests(s: State, b: nat)
    requires b < |s.backends|
    ensures Rests(s, Shut(s, b)) && Gone(Shut(s, b), b)
  {
    hide DroppedWith;
  }

  /** Only error replies came after, so the same servers are gone. */
  lemma RepliedRests(s: State, t: State)
    requires Replied(s, t)
    ensures Rests(s, t)
  {
    hide OnlyErrors;
  }

  ghost predicate NamesOnly(before: map<string, nat>, after: map<string, nat>, b: nat) {
    forall t :: t in after ==> after[t] == b || (t in before && after[t] == before[t])
  }

  ghost predicate AsksOnly(before: map<Id, Asked>, after: map<Id, Asked>, b: nat) {
    forall id :: id in after ==> after[id].owner == b || (id in before && after[id] == before[id])
  }

  /** What one server says names no other. */
  lemma SpeakerRests(s: State, t: State, b: nat)
    requires t.backends == s.backends && NamesOnly(s.threads, t.threads, b)
    requires NamesOnly(s.activeTurns, t.activeTurns, b) && AsksOnly(s.replies, t.replies, b)
    ensures RestsBut(s, t, b)
  {
  }
}

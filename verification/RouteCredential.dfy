/** The calls that carry a registry credential to the host, and what is left of it, told by how they went. */
module RouteCredential {
  import opened Prelude
  import opened GcpProvider

  /** How the calls of the last transfer of a secret file went; None for a call that was not made. */
  datatype Calls = Calls(
    made: Option<Outcome>,      // writing the local file; with an effect, a file is there
    copied: Option<Outcome>,    // the copy to the instance
    erased: Option<Outcome>,    // the removal of the local file
    consumed: Option<Outcome>,  // the host action that reads the copy, and removes it
    login: bool,                // that action left a registry login behind
    removed: Option<Outcome>)   // cleanup-registry-upload

  const NO_CALLS := Calls(None, None, None, None, false, None)

  /** A local file was written and its removal did not happen. */
  predicate LocalRemains(c: Calls) {
    Happened(c.made) && !Happened(c.erased)
  }

  /** The file was copied and neither the action that reads it nor its removal happened. */
  predicate UploadRemains(c: Calls) {
    Happened(c.copied) && !Happened(c.consumed) && !Happened(c.removed)
  }

  /** Nothing of the credential remains, here or there. */
  predicate NothingRemains(c: Calls) {
    !LocalRemains(c) && !UploadRemains(c) && !(c.login && Happened(c.consumed))
  }

  /** The removal of the local file failed with its own error, or worked where the writer's own had failed. */
  predicate LocalFailed(c: Calls) {
    c.erased.Some? && (c.erased.value.ExitsNonzero? || (c.erased.value.Works? && c.made == Some(ExitsNonzero(true))))
  }

  /** That error got out: nothing took its place afterwards. */
  predicate LocalErrorOut(c: Calls) {
    LocalFailed(c) && c.removed == Some(Works)
  }

  /** A local file remains and its own error did not get out: its removal was interrupted, or the removal of the
      uploaded file failed afterwards. */
  predicate LeftSilently(c: Calls) {
    LocalRemains(c) && (c.removed != Some(Works) || !(c.erased.Some? && c.erased.value.ExitsNonzero?))
  }

  /** Nothing of the credential is left, told by the calls: the local file's removal happened; and the instance is
      gone, or its uploaded file was read or removed, and any registry login was removed by one of the two clean-up
      actions. */
  predicate CallsRemoved(c: Calls, logout: Option<Outcome>, hostCleanup: Option<Outcome>, instance: bool) {
    && !LocalRemains(c)
    && (instance ==>
          && !UploadRemains(c)
          && (c.login && Happened(c.consumed) ==> Happened(logout) || Happened(hostCleanup)))
  }

  /** What is left of the credential, and of the local file, is what the calls say. */
  predicate Left(
    gone: bool, localFile: bool, c: Calls, logout: Option<Outcome>, hostCleanup: Option<Outcome>, instance: bool)
  {
    && (gone <==> CallsRemoved(c, logout, hostCleanup, instance))
    && (localFile <==> LocalRemains(c)) && CarriedThrough(c)
  }

  /** When the claim that the registry credentials are removed is made.  After an interrupted clean-up it is made
      whatever happened; otherwise, when something was created, exactly if no error of the local removal got out and
      the clean-up knows of the instance; so a local file is left under it exactly when it was left silently. */
  predicate Claim(c: Calls, removed: bool, known: bool, created: bool, claimed: bool, interrupted: bool) {
    match (created, interrupted)
    case (false, _) => claimed && removed && !interrupted
    case (true, true) => claimed
    case (true, false) =>
      && (claimed <==> !LocalErrorOut(c) && known)
      && (claimed && LocalRemains(c) <==> known && LeftSilently(c))
  }

  /** The calls that have to be made were made: the copy if the file was written, its removal in any case, the host
      action if all of these worked, and the removal of the upload whatever became of the others. */
  predicate CarriedThrough(c: Calls) {
    c == NO_CALLS ||
    (&& c.removed.Some?
     && (c.copied.Some? <==> c.made == Some(Works)) && (c.erased.Some? <==> c.made.Some?)
     && (c.consumed.Some? <==> c.made == c.copied == c.erased == Some(Works)))
  }

  /** How many calls of the transfer were made. */
  function Count(c: Calls): nat {
    (if c.made.Some? then 1 else 0) + (if c.copied.Some? then 1 else 0) + (if c.erased.Some? then 1 else 0)
    + (if c.consumed.Some? then 1 else 0) + (if c.removed.Some? then 1 else 0)
  }

  /** The commands of a transfer whose calls were these. */
  function CommandsOf(c: Calls, what: Question): (commands: seq<Command>)
    ensures |commands| == Count(c)
  {
    (if c.made.Some? then [Does(WriteSecret)] else []) + (if c.copied.Some? then [Does(CopySecret)] else [])
    + (if c.erased.Some? then [Does(EraseSecret)] else []) + (if c.consumed.Some? then [Asks(what)] else [])
    + (if c.removed.Some? then [Asks(UploadRemoved)] else [])
  }

  /** These are the provider's commands from `start` on: the file is written, copied if that worked, removed
      either way, read on the instance if all of that worked, and its upload removed either way. */
  predicate FromCommands(c: Calls, provider: Provider, start: nat) {
    && c.made == Some(provider.At(start))
    && c.copied == (if c.made == Some(Works) then Some(provider.At(start + 1)) else None)
    && c.erased == Some(provider.At(if c.made == Some(Works) then start + 2 else start + 1))
    && (c.consumed.Some? <==> c.made == c.copied == c.erased == Some(Works))
    && (c.consumed.Some? ==> c.consumed.value == provider.At(start + 3))
    && (c.removed.Some? ==> c.removed.value == provider.At(start + Count(c) - 1))
  }

  /** One more call, the next command. */
  lemma OneMoreCall(c: Calls, provider: Provider, start: nat, removed: Outcome)
    requires FromCommands(c, provider, start) && c.removed.None? && removed == provider.At(start + Count(c))
    ensures FromCommands(c.(removed := Some(removed)), provider, start)
  {
  }

  lemma RemovalIsLast(c: Calls, what: Question, removed: Outcome)
    requires c.removed.None?
    ensures CommandsOf(c.(removed := Some(removed)), what) == CommandsOf(c, what) + [Asks(UploadRemoved)]
  {
  }

  /** The transfer went through. */
  predicate Delivered(c: Calls) {
    c.consumed == Some(Works) && c.removed == Some(Works)
  }
}

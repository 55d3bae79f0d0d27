/** Which commits to classify, or whether to skip the run, from the registry and log outcomes. */
module Decision {
  import opened Text
  import opened Bump

  /** A commit as either the log or the event payload supplies it. */
  datatype Commit = Commit(message: string, body: string)

  /** Outcome of the registry request for the latest published version: it throws, or returns a
      record whose `gitHead` may be missing. */
  datatype Registry = LookupFailed | Latest(gitHead: Option<string>)

  /** Outcome of the git log request for the range `gitHead..GITHUB_SHA`. */
  datatype LogLookup = LogFailed | LogEntries(entries: seq<Commit>)

  /** Where the classified commits came from. */
  datatype Source = FromLog(from: string) | FromEvent

  /** What `run` does after its lookups: stop, or release from the chosen messages at their level. */
  datatype Verdict = Skip | NewRelease(source: Source, messages: seq<string>, level: Level)

  /** `message + '\n' + body` */
  function Assemble(c: Commit): string {
    c.message + "\n" + c.body
  }

  /** `.map(r => r.message + '\n' + r.body)` */
  function Messages(cs: seq<Commit>): seq<string> {
    seq(|cs|, i requires 0 <= i < |cs| => Assemble(cs[i]))
  }

  /** `event.commits || []` */
  function EventCommits(event: Option<seq<Commit>>): seq<Commit> {
    if event.Some? then event.value else []
  }

  /** The decision `run` takes before touching anything: skip when the registry's `gitHead` is
      the current SHA, otherwise classify the log range, or the event's commits whenever the
      registry, its `gitHead` or the log lookup lets it down. */
  function Resolve(registry: Registry, log: LogLookup, sha: Option<string>, event: Option<seq<Commit>>): (d: Verdict)
    ensures d.Skip? <==> registry.Latest? && registry.gitHead == sha
    ensures d.NewRelease? ==> d.level == Classify(d.messages)
    ensures d.NewRelease? && d.source.FromLog? <==>
              registry.Latest? && registry.gitHead != sha && Truthy(registry.gitHead) && log.LogEntries?
    ensures d.NewRelease? && d.source == FromEvent <==>
              || registry.LookupFailed?
              || (registry.gitHead != sha && (!Truthy(registry.gitHead) || log.LogFailed?))
    ensures d.NewRelease? && d.source.FromLog? ==>
              d.source.from == registry.gitHead.value && d.messages == Messages(log.entries)
    ensures d.NewRelease? && d.source == FromEvent ==> d.messages == Messages(EventCommits(event))
  {
    // `latest` stays set only while the log range is usable; otherwise the event commits are used
    var latest := registry.Latest?;
    if latest && registry.gitHead == sha then Skip
    else
      var fromLog := latest && Truthy(registry.gitHead) && log.LogEntries?;
      var messages := if fromLog then Messages(log.entries) else Messages(EventCommits(event));
      var source := if fromLog then FromLog(registry.gitHead.value) else FromEvent;
      NewRelease(source, messages, Classify(messages))
  }

  /** The minor-bump test on an assembled commit depends on its message alone: the line feed that
      follows the message cannot be part of a "feat" prefix. */
  lemma FeatureFromMessageOnly(c: Commit)
    ensures IsFeature(Assemble(c)) <==> IsFeature(c.message)
  {
    var m := Assemble(c);
    assert forall k :: 0 <= k < |c.message| ==> m[k] == c.message[k];
    assert m[|c.message|] == '\n';
    if |c.message| >= 4 {
      assert ToLower(m)[..4] == ToLower(c.message)[..4];
    } else {
      assert ToLower(m)[|c.message|] == '\n';
    }
  }

  /** A text that already begins with a lower-case "feat" passes the minor-bump test. */
  lemma LowerCaseFeature(m: string)
    requires StartsWith(m, "feat")
    ensures IsFeature(m)
  {
    assert forall k :: 0 <= k < 4 ==> ToLower(m)[k] == m[k];
  }

  /** A breaking-change marker or a bang-colon anywhere in any commit's message or body makes the
      whole batch major, whatever the other commits say. */
  lemma MarkerMakesMajor(cs: seq<Commit>, i: int, marker: string)
    requires 0 <= i < |cs|
    requires marker == "BREAKING CHANGE" || marker == "!:"
    requires Includes(cs[i].message, marker) || Includes(cs[i].body, marker)
    ensures Classify(Messages(cs)) == Major
  {
    if Includes(cs[i].message, marker) {
      IncludesConcat(cs[i].message, "\n", marker);
      IncludesConcat(cs[i].message + "\n", cs[i].body, marker);
    } else {
      IncludesConcat(cs[i].message + "\n", cs[i].body, marker);
    }
    assert IsBreaking(Messages(cs)[i]);
  }

  /** Without an event payload list the fallback classifies nothing and lands on `patch`. */
  lemma MissingEventCommits(registry: Registry, log: LogLookup, sha: Option<string>)
    requires registry.LookupFailed? || (registry.gitHead != sha && (!Truthy(registry.gitHead) || log.LogFailed?))
    ensures Resolve(registry, log, sha, None) == NewRelease(FromEvent, [], Patch)
  {
    assert Messages([]) == [];
  }

  /** The major-bump test on an assembled commit holds exactly when it holds on the message or
      on the body: neither marker contains the line feed between them. */
  lemma BreakingAssembled(c: Commit)
    ensures IsBreaking(Assemble(c)) <==> IsBreaking(c.message) || IsBreaking(c.body)
  {
    var m := Assemble(c);
    forall marker | marker == "BREAKING CHANGE" || marker == "!:"
      ensures Includes(m, marker) <==> Includes(c.message, marker) || Includes(c.body, marker)
    {
      if Includes(m, marker) {
        IncludesAcrossLineFeed(c.message, c.body, marker);
      }
      if Includes(c.message, marker) {
        IncludesConcat(c.message, "\n", marker);
      }
      if Includes(c.message, marker) || Includes(c.body, marker) {
        IncludesConcat(c.message + "\n", c.body, marker);
      }
    }
  }

  /** One assembled commit classifies as its own level. */
  lemma OneCommit(c: Commit)
    ensures Messages([c]) == [Assemble(c)]
    ensures Classify(Messages([c])) == LevelOf(Assemble(c))
  {
    assert Messages([c]) == [Assemble(c)];
    ClassifyCons(Assemble(c), []);
    assert [Assemble(c)] + [] == [Assemble(c)];
  }

  /** A commit whose message begins with "feat" and that has no marker in its message or body
      asks for a minor bump. */
  lemma PlainFeature(c: Commit)
    requires StartsWith(c.message, "feat")
    requires !IsBreaking(c.message) && !IsBreaking(c.body)
    ensures LevelOf(Assemble(c)) == Minor
  {
    LowerCaseFeature(c.message);
    FeatureFromMessageOnly(c);
    BreakingAssembled(c);
  }

  /** No prior release: a single event commit that begins with "feat" and has no marker gives a
      minor bump from the event. */
  lemma UnpublishedFeature(log: LogLookup, sha: Option<string>, c: Commit)
    requires StartsWith(c.message, "feat")
    requires !IsBreaking(c.message) && !IsBreaking(c.body)
    ensures Resolve(LookupFailed, log, sha, Some([c])) == NewRelease(FromEvent, [Assemble(c)], Minor)
  {
    OneCommit(c);
    PlainFeature(c);
  }

  /** A record whose `gitHead` is the current SHA, set or not, stops the run whatever the log
      and the event say. */
  lemma AlreadyReleased(h: Option<string>, log: LogLookup, event: Option<seq<Commit>>)
    ensures Resolve(Latest(h), log, h, event) == Skip
  {
  }

  /** A breaking change in the body of any logged commit since a recorded `gitHead` other than
      the current SHA makes the release major, from the log. */
  lemma BreakingChangeSinceRelease(h: string, sha: Option<string>, cs: seq<Commit>, i: int,
                                   event: Option<seq<Commit>>)
    requires h != "" && sha != Some(h)
    requires 0 <= i < |cs| && Includes(cs[i].body, "BREAKING CHANGE")
    ensures Resolve(Latest(Some(h)), LogEntries(cs), sha, event) == NewRelease(FromLog(h), Messages(cs), Major)
  {
    MarkerMakesMajor(cs, i, "BREAKING CHANGE");
  }
}

/**
 * What a run of `execute_batch` does, proved about the reference `BatchRun`
 * that `Runner.ExecuteBatch` is shown to follow.
 */
module RunnerProperties {
  import opened Wrappers
  import opened Commands
  import opened Authority
  import opened Engine
  import opened Runner

  /** The command loop: a prefix of the batch, cut right after the first failing command. */
  lemma CommandsRunShape(start: nat, failing: set<nat>, commands: seq<Command>, file: FileArg)
    ensures var r := CommandsRun(start, failing, commands, file);
      && |r.log| <= |commands|
      && (forall i :: 0 <= i < |r.log| ==> r.log[i] == Invocation(commands[i], CallerFile(file)))
      && (r.outcome == Completed ==> |r.log| == |commands|)
      && (r.outcome.Failed? ==> |r.log| >= 1 && r.outcome == Failed(EngineFailure(CommandStep(|r.log| - 1))))
  {
  }

  /** In the command loop only the last invocation can fail, and it does exactly when the loop failed. */
  lemma CommandsRunEnding(start: nat, failing: set<nat>, commands: seq<Command>, file: FileArg)
    ensures var r := CommandsRun(start, failing, commands, file);
      forall n :: start <= n < start + |r.log| ==>
        (n in failing <==> r.outcome.Failed? && n == start + |r.log| - 1)
  {
    FirstFailureMeaning(start, |commands|, failing);
  }

  /** The session: login, subscription, a prefix of the batch, logout, cut after the first failure. */
  lemma SessionRunShape(start: nat, failing: set<nat>, credential: Credential, tenant: string,
                        subscription: string, commands: seq<Command>, file: FileArg)
    ensures var r := SessionRun(start, failing, credential, tenant, subscription, commands, file);
      var n := |commands|;
      && 1 <= |r.log| <= n + 3
      && r.log[0] == Invocation(LoginCommand(credential.id, credential.secret, tenant), DefaultOutput)
      && (|r.log| >= 2 ==> r.log[1] == Invocation(SetSubscriptionCommand(subscription), DefaultOutput))
      && (forall i :: 2 <= i < |r.log| && i < n + 2 ==>
            r.log[i] == Invocation(commands[i - 2], CallerFile(file)))
      && (|r.log| == n + 3 ==> r.log[n + 2] == Invocation(LogoutCommand(), DefaultOutput))
      && (r.outcome == Completed ==> |r.log| == n + 3)
      && (r.outcome.Failed? ==> r.outcome == Failed(EngineFailure(SessionStep(|r.log| - 1, n))))
  {
  }

  /** In the session only the last invocation can fail, and it does exactly when the session failed. */
  lemma SessionRunEnding(start: nat, failing: set<nat>, credential: Credential, tenant: string,
                         subscription: string, commands: seq<Command>, file: FileArg)
    ensures var r := SessionRun(start, failing, credential, tenant, subscription, commands, file);
      forall m :: start <= m < start + |r.log| ==>
        (m in failing <==> r.outcome.Failed? && m == start + |r.log| - 1)
  {
    CommandsRunEnding(start + 2, failing, commands, file);
  }

  /** The extension check: the listing, then the install exactly when the scan found no `resource-graph`. */
  lemma PreconditionRunShape(base: nat, failing: set<nat>, extensions: seq<ExtensionRecord>)
    ensures var r := PreconditionRun(base, failing, extensions);
      && 1 <= |r.log| <= 2
      && r.log[0] == Invocation(ExtensionListCommand(), PrivateBuffer)
      && (|r.log| == 2 <==> base !in failing && ScanResult(extensions) == Ok(false))
      && (|r.log| == 2 ==> r.log[1] == Invocation(InstallResourceGraphCommand(), DefaultOutput))
      && (r.outcome == Completed <==>
            base !in failing && ScanResult(extensions).Ok? && (ScanResult(extensions).value || base + 1 !in failing))
      && (r.outcome.Failed? && r.outcome.error.EngineFailure? ==>
            r.outcome.error.step == (if |r.log| == 1 then ListStep else InstallStep))
  {
  }

  /** In the extension check only the last invocation can fail, and it does exactly when the check failed there. */
  lemma PreconditionRunEnding(base: nat, failing: set<nat>, extensions: seq<ExtensionRecord>)
    ensures var r := PreconditionRun(base, failing, extensions);
      forall m :: base <= m < base + |r.log| ==>
        (m in failing <==> r.outcome.Failed? && r.outcome.error.EngineFailure? && m == base + |r.log| - 1)
  {
  }

  /** Past a successful setup and both lookups, a run is the setup followed by the session. */
  lemma BatchRunEntersSession(base: nat, failing: set<nat>, configuration: Configuration, credential: Credential,
                              extensions: seq<ExtensionRecord>, commands: seq<Command>, file: FileArg)
    requires PreconditionRun(base, failing, extensions).outcome == Completed
    requires TenantId(credential.authUri).Some? && SubscriptionId(configuration).Some?
    ensures var pre := PreconditionRun(base, failing, extensions);
      var session := SessionRun(base + |pre.log|, failing, credential, TenantId(credential.authUri).value,
                                SubscriptionId(configuration).value, commands, file);
      BatchRun(base, failing, configuration, credential, extensions, commands, file)
        == Run(pre.log + session.log, session.outcome)
  {
  }

  /** Short of the session, a run is the setup alone. */
  lemma BatchRunStopsBeforeSession(base: nat, failing: set<nat>, configuration: Configuration, credential: Credential,
                                   extensions: seq<ExtensionRecord>, commands: seq<Command>, file: FileArg)
    requires PreconditionRun(base, failing, extensions).outcome.Failed?
             || TenantId(credential.authUri).None? || SubscriptionId(configuration).None?
    ensures var r := BatchRun(base, failing, configuration, credential, extensions, commands, file);
      var pre := PreconditionRun(base, failing, extensions);
      && r.log == pre.log && r.outcome.Failed?
      && (r.outcome.error.EngineFailure? ==> pre.outcome == r.outcome)
  {
  }

  /**
   * Every entry of a run, by position: with `s` the length of the setup
   * (1, or 2 when the install is issued), the listing at 0, the install at 1,
   * the login at `s`, the subscription at `s + 1`, the batch from `s + 2`
   * and the logout at `s + 2 + |commands|`.
   */
  lemma RunLayout(base: nat, failing: set<nat>, configuration: Configuration, credential: Credential,
                  extensions: seq<ExtensionRecord>, commands: seq<Command>, file: FileArg)
    ensures var r := BatchRun(base, failing, configuration, credential, extensions, commands, file);
      var s := |PreconditionRun(base, failing, extensions).log|;
      var n := |commands|;
      && s <= |r.log| <= s + n + 3
      && r.log[0] == Invocation(ExtensionListCommand(), PrivateBuffer)
      && (s == 2 ==> r.log[1] == Invocation(InstallResourceGraphCommand(), DefaultOutput))
      && (|r.log| > s ==>
            && ScanResult(extensions).Ok? && TenantId(credential.authUri).Some? && SubscriptionId(configuration).Some?
            && r.log[s] == Invocation(LoginCommand(credential.id, credential.secret, TenantId(credential.authUri).value),
                                      DefaultOutput))
      && (|r.log| > s + 1 ==>
            r.log[s + 1] == Invocation(SetSubscriptionCommand(SubscriptionId(configuration).value), DefaultOutput))
      && (forall i :: s + 2 <= i < |r.log| && i < s + 2 + n ==>
            r.log[i] == Invocation(commands[i - s - 2], CallerFile(file)))
      && (|r.log| == s + n + 3 ==> r.log[s + n + 2] == Invocation(LogoutCommand(), DefaultOutput))
  {
    SetupLayout(base, failing, configuration, credential, extensions, commands, file);
    SessionLayout(base, failing, configuration, credential, extensions, commands, file);
  }

  /** The setup part of `RunLayout`: the listing, and the install when it is issued. */
  lemma SetupLayout(base: nat, failing: set<nat>, configuration: Configuration, credential: Credential,
                    extensions: seq<ExtensionRecord>, commands: seq<Command>, file: FileArg)
    ensures var r := BatchRun(base, failing, configuration, credential, extensions, commands, file);
      var s := |PreconditionRun(base, failing, extensions).log|;
      && s <= |r.log| <= s + |commands| + 3
      && r.log[0] == Invocation(ExtensionListCommand(), PrivateBuffer)
      && (s == 2 ==> r.log[1] == Invocation(InstallResourceGraphCommand(), DefaultOutput))
  {
    var pre := PreconditionRun(base, failing, extensions);
    PreconditionRunShape(base, failing, extensions);
    if pre.outcome.Completed? && TenantId(credential.authUri).Some? && SubscriptionId(configuration).Some? {
      EnteredLayout(base, failing, configuration, credential, extensions, commands, file);
    } else {
      NotEnteredLayout(base, failing, configuration, credential, extensions, commands, file);
    }
  }

  /** The session part of `RunLayout`: the entries after the setup. */
  lemma SessionLayout(base: nat, failing: set<nat>, configuration: Configuration, credential: Credential,
                      extensions: seq<ExtensionRecord>, commands: seq<Command>, file: FileArg)
    ensures var r := BatchRun(base, failing, configuration, credential, extensions, commands, file);
      var s := |PreconditionRun(base, failing, extensions).log|;
      var n := |commands|;
      && (|r.log| > s ==>
            && ScanResult(extensions).Ok? && TenantId(credential.authUri).Some? && SubscriptionId(configuration).Some?
            && r.log[s] == Invocation(LoginCommand(credential.id, credential.secret, TenantId(credential.authUri).value),
                                      DefaultOutput))
      && (|r.log| > s + 1 ==>
            r.log[s + 1] == Invocation(SetSubscriptionCommand(SubscriptionId(configuration).value), DefaultOutput))
      && (forall i :: s + 2 <= i < |r.log| && i < s + 2 + n ==>
            r.log[i] == Invocation(commands[i - s - 2], CallerFile(file)))
      && (|r.log| == s + n + 3 ==> r.log[s + n + 2] == Invocation(LogoutCommand(), DefaultOutput))
  {
    var pre := PreconditionRun(base, failing, extensions);
    if pre.outcome.Completed? && TenantId(credential.authUri).Some? && SubscriptionId(configuration).Some? {
      EnteredLayout(base, failing, configuration, credential, extensions, commands, file);
    } else {
      NotEnteredLayout(base, failing, configuration, credential, extensions, commands, file);
    }
  }

  /** A run that got past the setup and both lookups: the setup's entries, then the session's. */
  lemma EnteredLayout(base: nat, failing: set<nat>, configuration: Configuration, credential: Credential,
                      extensions: seq<ExtensionRecord>, commands: seq<Command>, file: FileArg)
    requires PreconditionRun(base, failing, extensions).outcome.Completed?
    requires TenantId(credential.authUri).Some? && SubscriptionId(configuration).Some?
    ensures var r := BatchRun(base, failing, configuration, credential, extensions, commands, file);
      var s := |PreconditionRun(base, failing, extensions).log|;
      var n := |commands|;
      && ScanResult(extensions).Ok?
      && s < |r.log| <= s + n + 3
      && r.log[0] == Invocation(ExtensionListCommand(), PrivateBuffer)
      && (s == 2 ==> r.log[1] == Invocation(InstallResourceGraphCommand(), DefaultOutput))
      && r.log[s] == Invocation(LoginCommand(credential.id, credential.secret, TenantId(credential.authUri).value),
                                DefaultOutput)
      && (|r.log| > s + 1 ==>
            r.log[s + 1] == Invocation(SetSubscriptionCommand(SubscriptionId(configuration).value), DefaultOutput))
      && (forall i :: s + 2 <= i < |r.log| && i < s + 2 + n ==>
            r.log[i] == Invocation(commands[i - s - 2], CallerFile(file)))
      && (|r.log| == s + n + 3 ==> r.log[s + n + 2] == Invocation(LogoutCommand(), DefaultOutput))
  {
    var r := BatchRun(base, failing, configuration, credential, extensions, commands, file);
    var s := |PreconditionRun(base, failing, extensions).log|;
    var pre := PreconditionRun(base, failing, extensions);
    PreconditionRunShape(base, failing, extensions);
    var tenant, subscription := TenantId(credential.authUri).value, SubscriptionId(configuration).value;
    var session := SessionRun(base + |pre.log|, failing, credential, tenant, subscription, commands, file);
    SessionRunShape(base + |pre.log|, failing, credential, tenant, subscription, commands, file);
    BatchRunEntersSession(base, failing, configuration, credential, extensions, commands, file);
    ShiftedEntries(r.log, pre.log, session.log, s, credential, tenant, subscription, commands, file);
  }

  /** A run stopped by the setup or by a lookup holds the setup's entries alone. */
  lemma NotEnteredLayout(base: nat, failing: set<nat>, configuration: Configuration, credential: Credential,
                         extensions: seq<ExtensionRecord>, commands: seq<Command>, file: FileArg)
    requires PreconditionRun(base, failing, extensions).outcome.Failed?
             || TenantId(credential.authUri).None? || SubscriptionId(configuration).None?
    ensures var r := BatchRun(base, failing, configuration, credential, extensions, commands, file);
      var s := |PreconditionRun(base, failing, extensions).log|;
      && |r.log| == s
      && r.log[0] == Invocation(ExtensionListCommand(), PrivateBuffer)
      && (s == 2 ==> r.log[1] == Invocation(InstallResourceGraphCommand(), DefaultOutput))
  {
    PreconditionRunShape(base, failing, extensions);
    BatchRunStopsBeforeSession(base, failing, configuration, credential, extensions, commands, file);
  }

  /**
   * A log made of a setup (the listing, then the install when there are two
   * entries) followed by a session has its entries at the positions
   * `RunLayout` names.
   */
  lemma ShiftedEntries(log: seq<Invocation>, pre: seq<Invocation>, session: seq<Invocation>, s: nat,
                       credential: Credential, tenant: string, subscription: string,
                       commands: seq<Command>, file: FileArg)
    requires log == pre + session && |pre| == s
    requires 1 <= s <= 2 && pre[0] == Invocation(ExtensionListCommand(), PrivateBuffer)
    requires s == 2 ==> pre[1] == Invocation(InstallResourceGraphCommand(), DefaultOutput)
    requires var n := |commands|;
      && 1 <= |session| <= n + 3
      && session[0] == Invocation(LoginCommand(credential.id, credential.secret, tenant), DefaultOutput)
      && (|session| >= 2 ==> session[1] == Invocation(SetSubscriptionCommand(subscription), DefaultOutput))
      && (forall i :: 2 <= i < |session| && i < n + 2 ==>
            session[i] == Invocation(commands[i - 2], CallerFile(file)))
      && (|session| == n + 3 ==> session[n + 2] == Invocation(LogoutCommand(), DefaultOutput))
    ensures var n := |commands|;
      && s < |log| <= s + n + 3
      && log[0] == Invocation(ExtensionListCommand(), PrivateBuffer)
      && (s == 2 ==> log[1] == Invocation(InstallResourceGraphCommand(), DefaultOutput))
      && log[s] == Invocation(LoginCommand(credential.id, credential.secret, tenant), DefaultOutput)
      && (|log| > s + 1 ==> log[s + 1] == Invocation(SetSubscriptionCommand(subscription), DefaultOutput))
      && (forall i :: s + 2 <= i < |log| && i < s + 2 + n ==> log[i] == Invocation(commands[i - s - 2], CallerFile(file)))
      && (|log| == s + n + 3 ==> log[s + n + 2] == Invocation(LogoutCommand(), DefaultOutput))
  {
    forall i | s <= i < |log|
      ensures log[i] == session[i - s]
    {
    }
  }

  /**
   * How a run ends: the only failing invocation in its log is the last one,
   * and it is there exactly when the run ended with an engine failure, at
   * the step its position names; a completed run holds the whole plan.
   */
  lemma StopsAtFirstFailure(base: nat, failing: set<nat>, configuration: Configuration, credential: Credential,
                            extensions: seq<ExtensionRecord>, commands: seq<Command>, file: FileArg)
    ensures var r := BatchRun(base, failing, configuration, credential, extensions, commands, file);
      var s := |PreconditionRun(base, failing, extensions).log|;
      var n := |commands|;
      && |r.log| >= 1
      && (forall m :: base <= m < base + |r.log| ==>
            (m in failing <==> r.outcome.Failed? && r.outcome.error.EngineFailure? && m == base + |r.log| - 1))
      && (r.outcome == Completed ==> |r.log| == s + n + 3)
      && (r.outcome.Failed? && |r.log| > s ==> r.outcome.error.EngineFailure?)
      && (r.outcome.Failed? && r.outcome.error.EngineFailure? ==>
            r.outcome.error.step == (if |r.log| > s then SessionStep(|r.log| - 1 - s, n)
                                     else if |r.log| == 1 then ListStep else InstallStep))
  {
    var pre := PreconditionRun(base, failing, extensions);
    PreconditionRunShape(base, failing, extensions);
    PreconditionRunEnding(base, failing, extensions);
    if pre.outcome.Completed? && TenantId(credential.authUri).Some? && SubscriptionId(configuration).Some? {
      var start := base + |pre.log|;
      SessionRunShape(start, failing, credential, TenantId(credential.authUri).value,
                      SubscriptionId(configuration).value, commands, file);
      SessionRunEnding(start, failing, credential, TenantId(credential.authUri).value,
                       SubscriptionId(configuration).value, commands, file);
      BatchRunEntersSession(base, failing, configuration, credential, extensions, commands, file);
    } else {
      BatchRunStopsBeforeSession(base, failing, configuration, credential, extensions, commands, file);
    }
  }

  /**
   * When nothing fails, the engine is asked for exactly this, in this order:
   * the extension listing into the private buffer, the install only when
   * `resource-graph` was not listed, the login, the subscription choice, every
   * batch command in its original order into the caller's `file`, and the
   * logout.
   */
  lemma CompletedRunLog(base: nat, failing: set<nat>, configuration: Configuration, credential: Credential,
                        extensions: seq<ExtensionRecord>, commands: seq<Command>, file: FileArg,
                        installed: bool, tenant: string, subscription: string)
    requires ScanResult(extensions) == Ok(installed)
    requires TenantId(credential.authUri) == Some(tenant)
    requires SubscriptionId(configuration) == Some(subscription)
    requires forall m :: base <= m < base + |PreconditionRun(base, failing, extensions).log| + |commands| + 3
                         ==> m !in failing
    ensures BatchRun(base, failing, configuration, credential, extensions, commands, file)
         == Run([Invocation(["extension", "list"], PrivateBuffer)]
                + (if installed then [] else [Invocation(["extension", "add", "--name", "resource-graph"], DefaultOutput)])
                + [Invocation(["login", "--service-principal", "-u", credential.id, "-p", credential.secret,
                               "--tenant", tenant], DefaultOutput),
                   Invocation(["account", "set", "--subscription", subscription], DefaultOutput)]
                + seq(|commands|, i requires 0 <= i < |commands| => Invocation(commands[i], CallerFile(file)))
                + [Invocation(["logout"], DefaultOutput)],
                Completed)
  {
    var pre := PreconditionRun(base, failing, extensions);
    assert base !in failing;
    assert !installed ==> base + 1 !in failing;
    assert pre.outcome == Completed;
    var start := base + |pre.log|;
    assert start + 2 + |commands| !in failing;
    FirstFailureMeaning(start + 2, |commands|, failing);
    assert FirstFailure(start + 2, |commands|, failing) == None;
    BatchRunEntersSession(base, failing, configuration, credential, extensions, commands, file);
  }

  /** A completed run scanned, parsed and looked up successfully, and none of its invocations failed. */
  lemma CompletionMeansNothingFailed(base: nat, failing: set<nat>, configuration: Configuration,
                                     credential: Credential, extensions: seq<ExtensionRecord>,
                                     commands: seq<Command>, file: FileArg)
    requires BatchRun(base, failing, configuration, credential, extensions, commands, file).outcome == Completed
    ensures var r := BatchRun(base, failing, configuration, credential, extensions, commands, file);
      && ScanResult(extensions).Ok? && TenantId(credential.authUri).Some? && SubscriptionId(configuration).Some?
      && forall m :: base <= m < base + |r.log| ==> m !in failing
  {
    RunLayout(base, failing, configuration, credential, extensions, commands, file);
    StopsAtFirstFailure(base, failing, configuration, credential, extensions, commands, file);
  }

  /**
   * The install is issued exactly when `resource-graph` was not listed (and
   * the listing itself did not fail), at most once, and right after the
   * listing: position 1, before the login.
   */
  lemma InstallIssuedIffAbsent(base: nat, failing: set<nat>, configuration: Configuration, credential: Credential,
                               extensions: seq<ExtensionRecord>, commands: seq<Command>, file: FileArg)
    ensures var r := BatchRun(base, failing, configuration, credential, extensions, commands, file);
      var install := Invocation(InstallResourceGraphCommand(), DefaultOutput);
      && (install in r.log <==> base !in failing && ScanResult(extensions) == Ok(false))
      && (forall i :: 0 <= i < |r.log| && r.log[i] == install ==> i == 1)
  {
    var r := BatchRun(base, failing, configuration, credential, extensions, commands, file);
    var install := Invocation(InstallResourceGraphCommand(), DefaultOutput);
    var s := |PreconditionRun(base, failing, extensions).log|;
    RunLayout(base, failing, configuration, credential, extensions, commands, file);
    forall i | 0 <= i < |r.log| && (i != 1 || s == 1)
      ensures r.log[i] != install
    {
      if i == 0 {
        assert r.log[i].sink == PrivateBuffer;
      } else if i == s {
        assert |r.log[i].command| == 8;
      } else if i == s + 1 {
        assert r.log[i].command[0] == "account";
      } else if i < s + 2 + |commands| {
        assert r.log[i].sink.CallerFile?;
      } else {
        assert |r.log[i].command| == 1;
      }
    }
  }

  /**
   * Output destinations: the listing alone writes into the private buffer,
   * the batch commands alone into the caller's `file`, and every other
   * invocation (install, login, subscription, logout) names no destination.
   */
  lemma SinkDiscipline(base: nat, failing: set<nat>, configuration: Configuration, credential: Credential,
                       extensions: seq<ExtensionRecord>, commands: seq<Command>, file: FileArg)
    ensures var r := BatchRun(base, failing, configuration, credential, extensions, commands, file);
      var s := |PreconditionRun(base, failing, extensions).log|;
      forall i :: 0 <= i < |r.log| ==>
        && (r.log[i].sink == PrivateBuffer <==> i == 0)
        && (r.log[i].sink.CallerFile? <==> s + 2 <= i < s + 2 + |commands|)
        && (r.log[i].sink.CallerFile? ==> r.log[i] == Invocation(commands[i - s - 2], CallerFile(file)))
        && (0 < i && !r.log[i].sink.CallerFile? ==> r.log[i].sink == DefaultOutput)
  {
    var r := BatchRun(base, failing, configuration, credential, extensions, commands, file);
    var s := |PreconditionRun(base, failing, extensions).log|;
    PreconditionRunShape(base, failing, extensions);
    RunLayout(base, failing, configuration, credential, extensions, commands, file);
    forall i | 0 <= i < |r.log|
      ensures && (r.log[i].sink == PrivateBuffer <==> i == 0)
              && (r.log[i].sink.CallerFile? <==> s + 2 <= i < s + 2 + |commands|)
              && (r.log[i].sink.CallerFile? ==> r.log[i] == Invocation(commands[i - s - 2], CallerFile(file)))
              && (0 < i && !r.log[i].sink.CallerFile? ==> r.log[i].sink == DefaultOutput)
    {
      if i == 0 {
        assert r.log[i].sink == PrivateBuffer;
      } else if i < s {
        assert r.log[i].sink == DefaultOutput;
      } else if i == s || i == s + 1 {
        assert r.log[i].sink == DefaultOutput;
      } else if i < s + 2 + |commands| {
        assert r.log[i] == Invocation(commands[i - s - 2], CallerFile(file));
      } else {
        assert r.log[i].sink == DefaultOutput;
      }
    }
  }

  /**
   * The logout is in the log exactly when the run got to it: the run
   * completed, or the logout itself failed. Any earlier failure, a failing
   * batch command included, leaves the session logged in.
   */
  lemma LogoutOnlyAtTheEnd(base: nat, failing: set<nat>, configuration: Configuration, credential: Credential,
                           extensions: seq<ExtensionRecord>, commands: seq<Command>, file: FileArg)
    ensures var r := BatchRun(base, failing, configuration, credential, extensions, commands, file);
      (Invocation(LogoutCommand(), DefaultOutput) in r.log
       <==> r.outcome == Completed || r.outcome == Failed(EngineFailure(LogoutStep)))
  {
    var r := BatchRun(base, failing, configuration, credential, extensions, commands, file);
    var logout := Invocation(LogoutCommand(), DefaultOutput);
    var s := |PreconditionRun(base, failing, extensions).log|;
    var n := |commands|;
    RunLayout(base, failing, configuration, credential, extensions, commands, file);
    StopsAtFirstFailure(base, failing, configuration, credential, extensions, commands, file);
    forall i | 0 <= i < |r.log| && i != s + n + 2
      ensures r.log[i] != logout
    {
      if i == 0 {
        assert r.log[i].sink == PrivateBuffer;
      } else if i == 1 && s == 2 {
        assert |r.log[i].command| == 4;
      } else if i == s {
        assert |r.log[i].command| == 8;
      } else if i == s + 1 {
        assert |r.log[i].command| == 4;
      } else {
        assert r.log[i].sink.CallerFile?;
      }
    }
    if r.outcome == Failed(EngineFailure(LogoutStep)) {
      assert |r.log| > s;
    }
  }

  /**
   * The subscription lookup, stated on the configuration itself: once the
   * extension check completed and the tenant was found, the run raises
   * KeyError exactly when `configuration['azure']['subscription_id']` is
   * missing, and then invokes nothing more; otherwise it logs in and, unless
   * the login failed, selects that very subscription.
   */
  lemma SubscriptionLookup(base: nat, failing: set<nat>, configuration: Configuration, credential: Credential,
                           extensions: seq<ExtensionRecord>, commands: seq<Command>, file: FileArg)
    requires PreconditionRun(base, failing, extensions).outcome.Completed?
    requires TenantId(credential.authUri).Some?
    ensures var r := BatchRun(base, failing, configuration, credential, extensions, commands, file);
      var s := |PreconditionRun(base, failing, extensions).log|;
      var missing := "azure" !in configuration || "subscription_id" !in configuration["azure"];
      && (r.outcome == Failed(SubscriptionIdMissing) <==> missing)
      && (missing ==> |r.log| == s)
      && (!missing ==> s < |r.log|)
      && (!missing && |r.log| > s + 1 ==>
            r.log[s + 1] == Invocation(["account", "set", "--subscription",
                                        configuration["azure"]["subscription_id"]], DefaultOutput))
  {
    RunLayout(base, failing, configuration, credential, extensions, commands, file);
    if "azure" in configuration && "subscription_id" in configuration["azure"] {
      var pre := PreconditionRun(base, failing, extensions);
      SessionRunShape(base + |pre.log|, failing, credential, TenantId(credential.authUri).value,
                      configuration["azure"]["subscription_id"], commands, file);
      BatchRunEntersSession(base, failing, configuration, credential, extensions, commands, file);
    }
  }

  /**
   * Where the code departs from the expectation that a login/logout bracket
   * logs out even when a command fails: when
   * batch command `j` fails, the log ends with that command and holds no
   * logout, so neither the later commands nor the logout are issued.
   */
  lemma CommandFailureSkipsLogout(base: nat, failing: set<nat>, configuration: Configuration,
                                  credential: Credential, extensions: seq<ExtensionRecord>,
                                  commands: seq<Command>, file: FileArg, j: nat)
    requires BatchRun(base, failing, configuration, credential, extensions, commands, file).outcome
          == Failed(EngineFailure(CommandStep(j)))
    ensures var r := BatchRun(base, failing, configuration, credential, extensions, commands, file);
      var s := |PreconditionRun(base, failing, extensions).log|;
      && j < |commands|
      && |r.log| == s + 3 + j
      && r.log[|r.log| - 1] == Invocation(commands[j], CallerFile(file))
      && base + |r.log| - 1 in failing
      && Invocation(LogoutCommand(), DefaultOutput) !in r.log
  {
    RunLayout(base, failing, configuration, credential, extensions, commands, file);
    StopsAtFirstFailure(base, failing, configuration, credential, extensions, commands, file);
    LogoutOnlyAtTheEnd(base, failing, configuration, credential, extensions, commands, file);
  }

  /**
   * A run that reaches its commands, with `resource-graph` already listed
   * and only the first batch command failing, ends without a logout.
   */
  lemma FirstCommandFailureLeavesSessionOpen(configuration: Configuration, credential: Credential,
                                             commands: seq<Command>, file: FileArg)
    requires TenantId(credential.authUri).Some? && SubscriptionId(configuration).Some?
    requires |commands| >= 1
    ensures var r := BatchRun(0, {3}, configuration, credential, [ExtensionRecord(Some(ResourceGraph))],
                              commands, file);
      && r.outcome == Failed(EngineFailure(CommandStep(0)))
      && |r.log| == 4
      && Invocation(LogoutCommand(), DefaultOutput) !in r.log
  {
    var extensions := [ExtensionRecord(Some(ResourceGraph))];
    var r := BatchRun(0, {3}, configuration, credential, extensions, commands, file);
    assert ScanUpTo(extensions, 0) == Ok(false);
    assert extensions[0].name == Some(ResourceGraph);
    assert ScanResult(extensions) == Ok(true);
    RunLayout(0, {3}, configuration, credential, extensions, commands, file);
    StopsAtFirstFailure(0, {3}, configuration, credential, extensions, commands, file);
    LogoutOnlyAtTheEnd(0, {3}, configuration, credential, extensions, commands, file);
  }
}

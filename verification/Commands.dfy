/**
 What the dispatcher makes of each kind of update, as a table over the texts themselves: which
 attempts it gets, and how often its command is carried out.
 */
module Commands {
  import opened Text
  import opened InboxTable
  import opened Dispatch
  import D = Delivery

  /** From an allowed chat, with something in it. */
  predicate Served(u: Update, e: Env) {
    u.chat != 0 && u.chat in e.allow && (Trim(u.text) != "" || u.callback != "")
  }

  /** Commands that only report. */
  predicate Reports(text: string) {
    || text == "/help" || text == "/start" || text == "/rules" || text == "/rules export" || text == "/approvals"
    || text == "/status" || text == "/stats" || HasPrefix(text, "/stats ") || text == "/history" || text == "/health"
    || text == "/jobs" || text == "/cancel_job" || text == "/scheduled"
  }

  /** Commands that schedule, cancel or decide on their own. */
  predicate Commits(text: string) {
    || HasPrefix(text, "/every ") || HasPrefix(text, "/cancel_job ")
    || text == "/unschedule" || text == "/approve" || text == "/deny"
  }

  /** Decisions that name a request. */
  predicate Decides(text: string) {
    HasPrefix(text, "/approve ") || HasPrefix(text, "/deny ") || HasPrefix(text, "approve ") || HasPrefix(text, "deny ")
  }

  predicate AsksLogs(text: string) {
    text == "/api_perf" || text == "/exceptions" || text == "/access" || text == "/audit" || text == "/behaviour"
  }

  predicate AsksWatch(text: string) {
    text == "/watch" || text == "/unwatch" || text == "/watchlist" || text == "/analyze"
  }

  lemma Starts(text: string, p: string, k: nat)
    requires HasPrefix(text, p) && k < |p|
    ensures k < |text| && text[k] == p[k]
  {
    assert text[..|p|][k] == text[k];
  }

  lemma Behind(text: string, c: char, p: string)
    ensures HasPrefix(text, [c] + p) <==> text != "" && text[0] == c && HasPrefix(text[1..], p)
  {
    if |text| > |p| {
      assert text[..|p| + 1] == [text[0]] + text[1..][..|p|];
      assert ([c] + p)[1..] == p && text[..|p| + 1][1..] == text[1..][..|p|];
    }
  }

  lemma DecidesIff(text: string)
    ensures Decides(text) <==> DecisionForm(text)
  {
    Behind(text, '/', "approve ");
    Behind(text, '/', "deny ");
    Behind(text, '/', "");
    assert ['/'] + "approve " == "/approve " && ['/'] + "deny " == "/deny " && ['/'] + "" == "/";
    if HasPrefix(text, "approve ") {
      Starts(text, "approve ", 0);
    }
    if HasPrefix(text, "deny ") {
      Starts(text, "deny ", 0);
    }
  }

  /** The first two characters tell a decision from the other commands. */
  lemma DecidesHead(text: string)
    requires Decides(text)
    ensures |text| >= 5 && (text[0] == '/' || text[0] == 'a' || text[0] == 'd')
    ensures text[0] == '/' ==> (text[1] == 'a' && text[2] == 'p' && |text| > 8 && text[8] == ' ')
                               || (text[1] == 'd' && text[2] == 'e' && text[3] == 'n' && |text| > 5 && text[5] == ' ')
  {
    if HasPrefix(text, "/approve ") {
      Starts(text, "/approve ", 0);
      Starts(text, "/approve ", 1);
      Starts(text, "/approve ", 2);
      Starts(text, "/approve ", 8);
    } else if HasPrefix(text, "/deny ") {
      Starts(text, "/deny ", 0);
      Starts(text, "/deny ", 1);
      Starts(text, "/deny ", 2);
      Starts(text, "/deny ", 3);
      Starts(text, "/deny ", 5);
    } else if HasPrefix(text, "approve ") {
      Starts(text, "approve ", 0);
    } else {
      Starts(text, "deny ", 0);
    }
  }

  lemma PrefixHead(text: string)
    requires PrefixCommand(text)
    ensures |text| >= 7 && text[0] == '/' && (text[1] == 's' || text[1] == 'e' || text[1] == 'c')
  {
    var p := if HasPrefix(text, "/stats ") then "/stats " else if HasPrefix(text, "/every ") then "/every " else "/cancel_job ";
    Starts(text, p, 0);
    Starts(text, p, 1);
  }

  /** No built-in command is a decision with a number. */
  lemma DecidesApart(text: string)
    requires Decides(text)
    ensures !PrefixCommand(text) && !ExactCommand(text) && !LogCommand(text) && !WatchCommand(text)
    ensures Trim(text) != ""
  {
    DecidesHead(text);
    if PrefixCommand(text) {
      PrefixHead(text);
    }
    SomeText(text);
  }

  lemma {:induction false} SomeRight(text: string)
    requires text != "" && !IsSpace(text[0])
    ensures TrimRight(text) != ""
  {
    if IsSpace(text[|text| - 1]) {
      SomeRight(text[..|text| - 1]);
    }
  }

  lemma SomeText(text: string)
    requires text != "" && !IsSpace(text[0])
    ensures Trim(text) != ""
  {
    SomeRight(text);
  }

  // Two characters and the length tell the built-in commands apart.

  lemma ReportMark(text: string)
    requires Reports(text)
    ensures |text| >= 5 && (text[1] == 'h' || text[1] == 's' || text[1] == 'r' || text[1] == 'j'
                            || (text[1] == 'a' && text[2] == 'p' && |text| == 10)
                            || (text[1] == 'c' && text[2] == 'a' && |text| == 11))
  {
    if HasPrefix(text, "/stats ") {
      Starts(text, "/stats ", 1);
    }
  }

  lemma CommitMark(text: string)
    requires Commits(text)
    ensures |text| >= 5 && ((text[1] == 'e' && text[2] == 'v')
                            || (text[1] == 'd' && text[2] == 'e')
                            || (text[1] == 'u' && text[2] == 'n' && text[3] == 's')
                            || (text[1] == 'a' && text[2] == 'p' && |text| == 8)
                            || (text[1] == 'c' && text[2] == 'a' && |text| >= 12))
  {
    if HasPrefix(text, "/every ") {
      Starts(text, "/every ", 1);
      Starts(text, "/every ", 2);
    } else if HasPrefix(text, "/cancel_job ") {
      Starts(text, "/cancel_job ", 1);
      Starts(text, "/cancel_job ", 2);
    }
  }

  lemma AskMark(text: string)
    ensures AsksLogs(text) ==>
              |text| >= 5 && (text[1] == 'b' || (text[1] == 'e' && text[2] == 'x')
                              || (text[1] == 'a' && text[2] == 'p' && |text| == 9)
                              || (text[1] == 'a' && (text[2] == 'c' || text[2] == 'u')))
    ensures AsksWatch(text) ==>
              |text| >= 5 && (text[1] == 'w' || (text[1] == 'u' && text[2] == 'n' && text[3] == 'w')
                              || (text[1] == 'a' && text[2] == 'n'))
  {
  }

  lemma KindsApart(text: string)
    ensures Reports(text) ==> !Commits(text) && !AsksLogs(text) && !AsksWatch(text)
    ensures Commits(text) ==> !AsksLogs(text) && !AsksWatch(text)
    ensures AsksLogs(text) ==> !AsksWatch(text)
  {
    AskMark(text);
    if Reports(text) {
      ReportMark(text);
    }
    if Commits(text) {
      CommitMark(text);
    }
    hide Reports, Commits, AsksLogs, AsksWatch;
  }

  lemma ActsFirstIff(text: string)
    ensures ActsFirst(text) <==> Commits(text)
  {
  }

  lemma Builtin(text: string)
    ensures Reports(text) || Commits(text) <==> PrefixCommand(text) || ExactCommand(text)
    ensures AsksLogs(text) <==> LogCommand(text)
    ensures AsksWatch(text) <==> WatchCommand(text)
  {
  }

  lemma BuiltinText(text: string)
    requires Reports(text) || Commits(text) || AsksLogs(text) || AsksWatch(text)
    ensures Trim(text) != "" && HasPrefix(text, "/") && !Decides(text)
  {
    Builtin(text);
    if PrefixCommand(text) {
      PrefixHead(text);
    }
    assert text != "" && text[0] == '/';
    SomeText(text);
    if Decides(text) {
      DecidesApart(text);
    }
  }

  /** What follows the wired log and watch commands, and what other slash text gets. */
  function Slashed(text: string, e: Env): D.Attempt {
    if FirstWord(text) !in e.gated && e.known(FirstWord(text)) then D.Routed else D.Reply
  }

  function Gated(text: string, e: Env): nat {
    if FirstWord(text) in e.gated then 1 else 0
  }

  /** Nobody is served without a plan, a press of a button acts once. */
  lemma OutsideTable(u: Update, e: Env)
    ensures !Served(u, e) ==> Attempts(u, e) == [] && Effects(u, e) == 0
    ensures Served(u, e) && u.callback != "" ==> Attempts(u, e) == [D.Reply] && Effects(u, e) == 1
  {
    hide PrefixCommand, ExactCommand, LogCommand, WatchCommand, LastAttempt, LastEffects, Trim;
  }

  /** The built-in commands. */
  lemma BuiltinTable(u: Update, e: Env)
    requires Served(u, e) && u.callback == ""
    ensures Reports(u.text) ==> Attempts(u, e) == [D.Reply] && Effects(u, e) == 0
    ensures Commits(u.text) ==> Attempts(u, e) == [D.Reply] && Effects(u, e) == 1
    ensures AsksLogs(u.text) ==>
              && (!e.logWired ==> Attempts(u, e) == [D.Reply] && Effects(u, e) == 0)
              && (e.logWired ==> Attempts(u, e) == [D.Reply, Slashed(u.text, e)] && Effects(u, e) == Gated(u.text, e))
    ensures AsksWatch(u.text) ==>
              && (!e.watchWired ==> Attempts(u, e) == [D.Reply] && Effects(u, e) == 0)
              && (e.watchWired ==> Attempts(u, e) == [D.Reply, Slashed(u.text, e)] && Effects(u, e) == 1 + Gated(u.text, e))
  {
    Builtin(u.text);
    DecidesIff(u.text);
    CommandsApart(u.text);
    if Reports(u.text) || Commits(u.text) || AsksLogs(u.text) || AsksWatch(u.text) {
      BuiltinText(u.text);
    }
    ActsFirstIff(u.text);
    KindsApart(u.text);
    hide PrefixCommand, ExactCommand, LogCommand, WatchCommand, ActsFirst, Trim, FirstWord, DecisionForm;
    hide Reports, Commits, AsksLogs, AsksWatch, Decides, HasPrefix;
  }

  /** Everything else: decisions, gated actions, router commands, unknown commands, prompts. */
  lemma OtherTable(u: Update, e: Env)
    requires Served(u, e) && u.callback == ""
    requires !Reports(u.text) && !Commits(u.text) && !AsksLogs(u.text) && !AsksWatch(u.text)
    ensures Decides(u.text) ==> Attempts(u, e) == [D.Reply] && Effects(u, e) == 1
    ensures !Decides(u.text) ==>
              && Effects(u, e) == Gated(u.text, e)
              && Attempts(u, e) == (if FirstWord(u.text) !in e.gated && !HasPrefix(u.text, "/") then [D.FreeForm]
                                    else [Slashed(u.text, e)])
  {
    Builtin(u.text);
    DecidesIff(u.text);
    hide PrefixCommand, ExactCommand, LogCommand, WatchCommand, ActsFirst, Trim, FirstWord, DecisionForm;
    hide Reports, Commits, AsksLogs, AsksWatch, Decides, HasPrefix;
  }

  /** The first word of a text is what comes before its first blank. */
  lemma FirstWordMeans(w: string, rest: string)
    requires ' ' !in w && Trimmed(w)
    ensures FirstWord(w) == w && FirstWord(w + " " + rest) == w
  {
    SplitHasNoSep(w, ' ');
    SplitPrefix(w, " " + rest, ' ');
    TrimIsTrimmed(w);
    assert w + (" " + rest) == w + " " + rest;
    assert (" " + rest)[0] == ' ';
    assert w + "" == w;
  }

  // ------------------------------------------------------------------ the protocol's plan

  /** What the delivery protocol is told of a deployment. */
  function ConfigOf(content: int -> Update, e: Env, limit: nat): D.Config {
    D.Config(content, id => Attempts(content(id), e), id => Effects(content(id), e) > 0, limit)
  }

  /** Whether an update carries a command out. */
  predicate Carries(u: Update, e: Env) {
    Served(u, e) && (u.callback != "" || CarriesText(u.text, e))
  }

  predicate CarriesText(text: string, e: Env) {
    || Commits(text) || Decides(text)
    || (AsksWatch(text) && e.watchWired)
    || (FirstWord(text) in e.gated && !Reports(text) && (AsksLogs(text) ==> e.logWired) && !AsksWatch(text))
  }

  /** An update acts exactly if it is eager in the protocol. */
  lemma EagerIff(content: int -> Update, e: Env, limit: nat, id: int)
    ensures ConfigOf(content, e, limit).eager(id) <==> Carries(content(id), e)
    ensures ConfigOf(content, e, limit).plan(id) == Attempts(content(id), e)
  {
    var u := content(id);
    OutsideTable(u, e);
    if Served(u, e) && u.callback == "" {
      BuiltinTable(u, e);
      if !Reports(u.text) && !Commits(u.text) && !AsksLogs(u.text) && !AsksWatch(u.text) {
        OtherTable(u, e);
      } else {
        BuiltinText(u.text);
        Builtin(u.text);
        CommandsApart(u.text);
        KindsApart(u.text);
      }
    }
    hide Effects, Attempts, Reports, Commits, Decides, AsksLogs, AsksWatch, Served, FirstWord, Trim;
  }
}

/** Alice, the game's one NPC (src/npcs/alice.rs): a 25-step dialogue script
    keyed by a progress counter, a remembered dialogue choice, hitpoints that
    attacks wear down, and a first-in first-out outbox of responses.

    The script is kept as data (`StepMessages`, `StepGate`) and the effect of
    one action as a function of the NPC's state (`Handled`, `GateAfter`);
    the class `AliceNpc` is the in-place object the game loop drives, and each
    of its methods is proved to move its fields exactly as those functions say. */
module Alice {
  import opened Wrappers
  import opened Text
  import opened NpcTypes
  import opened BackendState

  /** Number of script steps: the job is done once progress reaches it. */
  const SCRIPT_LENGTH: nat := 25

  /** From this step on, Alice is introduced by name. */
  const REVEAL_STEP: nat := 17

  /** The fields of the NPC, as one value. */
  datatype AliceState = AliceState(progress: nat, previousChoice: nat, hitpoints: int, queue: seq<NpcResponse>)

  /** `AliceNpc::default()`. */
  function Fresh(): AliceState
  {
    AliceState(0, 0, INT32_MAX, [])
  }

  /** `name()`: hidden until the reveal step. */
  function NameAt(progress: nat): (n: string)
    ensures n == "BreeDFS" <==> progress >= REVEAL_STEP
  {
    if progress >= REVEAL_STEP then "BreeDFS" else "???"
  }

  /** `info()`: hidden until the reveal step. */
  function InfoAt(progress: nat): (r: string)
    ensures NameAt(progress) <= r
    ensures r == "???" <==> progress < REVEAL_STEP
  {
    if progress >= REVEAL_STEP then
      Join(["BreeDFS",
            "A floating sphere resembling the BreeDFS logo.",
            "The ultimate form of evil, overlord of hell."], "\n")
    else "???"
  }

  /** `job_completed()`: the script has run to its end; hitpoints play no part. */
  predicate JobDone(s: AliceState)
    ensures JobDone(s) <==> !CanHandle(s, Ping) && !CanHandle(s, Respond(0))
  {
    s.progress >= SCRIPT_LENGTH
  }

  /** Every named response in `msgs` is spoken by `name`. */
  predicate SpokenBy(msgs: seq<NpcResponse>, name: string)
  {
    forall i :: 0 <= i < |msgs| && msgs[i].name.Some? ==> msgs[i].name.value == name
  }

  /** The responses step `p` of the script queues, given the remembered
      choice: every step but step 6 after a non-zero choice queues something,
      and every named response carries the name the NPC has at that step. */
  function StepMessages(p: nat, choice: nat): (r: seq<NpcResponse>)
    requires p < SCRIPT_LENGTH
    ensures r == [] <==> p == 6 && choice != 0
    ensures SpokenBy(r, NameAt(p))
  {
    var n := NameAt(p);
    match p
    case 0 => Step0(n)
    case 1 => Step1(n)
    case 2 => Step2(n)
    case 3 => Step3(n)
    case 4 => Step4(n)
    case 5 => Step5(choice, n)
    case 6 => Step6(choice, n)
    case 7 => Step7(n)
    case 8 => Step8(n)
    case 9 => Step9(n)
    case 10 => Step10(n)
    case 11 => Step11(choice, n)
    case 12 => Step12(n)
    case 13 => Step13(n)
    case 14 => Step14(n)
    case 15 => Step15(n)
    case 16 => Step16(n)
    case 17 => Step17(n)
    case 18 => Step18(n)
    case 19 => Step19(n)
    case 20 => Step20(n)
    case 21 => Step21(n)
    case 22 => Step22(n)
    case 23 => Step23(n)
    case _ => Step24(n)
  }

  /** The responses each arm of `interact` queues, step by step, with `n`
      the name the NPC goes by at that step and `choice` the remembered choice
      where the step depends on it. Every step queues something, except that
      step 6 says nothing more once the player has claimed to remember, and
      every named response is spoken by the NPC itself. */
  function Step0(n: string): (r: seq<NpcResponse>)
    ensures r != [] && SpokenBy(r, n)
  {
    [SayAs("oh hi human being! welcome to hell!", n)]
  }

  function Step1(n: string): (r: seq<NpcResponse>)
    ensures r != [] && SpokenBy(r, n)
  {
    [Ask("you're new here, right?", ["Yeah", "I guess...?"])]
  }

  function Step2(n: string): (r: seq<NpcResponse>)
    ensures r != [] && SpokenBy(r, n)
  {
    [AskAs("oh cool! do you remember what happened?", n, ["No"])]
  }

  function Step3(n: string): (r: seq<NpcResponse>)
    ensures r != [] && SpokenBy(r, n)
  {
    [SayAs("hmm. i suppose there's this possibility -", n)]
  }

  function Step4(n: string): (r: seq<NpcResponse>)
    ensures r != [] && SpokenBy(r, n)
  {
    [Ask("that you have just died.", ["What?", "Wait I remember! There was a truck..."])]
  }

  function Step5(choice: nat, n: string): (r: seq<NpcResponse>)
    ensures r != [] && SpokenBy(r, n)
  {
    if choice == 0 then
      [SayAs("this is the inferno. a place where " +
             "decease souls and other creatures " +
             "belong.", n)]
    else
      [SayAs("so it seems like you do remember...", n)]
  }

  function Step6(choice: nat, n: string): (r: seq<NpcResponse>)
    ensures r == [] <==> choice != 0
    ensures SpokenBy(r, n)
  {
    if choice == 0 then
      [Say("i'm sorry, human. but i have some " + "bad news. you have just died.")]
    else
      []
  }

  function Step7(n: string): (r: seq<NpcResponse>)
    ensures r != [] && SpokenBy(r, n)
  {
    [Say("....")]
  }

  function Step8(n: string): (r: seq<NpcResponse>)
    ensures r != [] && SpokenBy(r, n)
  {
    [Say("anyways, the hell is currently " + "undergoing some system upgrades.")]
  }

  function Step9(n: string): (r: seq<NpcResponse>)
    ensures r != [] && SpokenBy(r, n)
  {
    [Say("things have been going really, *really* bad lately."),
     Say("bugs are everywhere, and even " +
         "the most overworked workers couldn't " +
         "fix them."),
     Say("even worse, at least half of them " + "quit their jobs last month.")]
  }

  function Step10(n: string): (r: seq<NpcResponse>)
    ensures r != [] && SpokenBy(r, n)
  {
    [Ask("i've heard about you before. you were an engineer, right?", ["Yes.", "No?"])]
  }

  function Step11(choice: nat, n: string): (r: seq<NpcResponse>)
    ensures r != [] && SpokenBy(r, n)
  {
    if choice == 0 then
      [SayAs("cool!!!", n)]
    else
      [SayAs("liars will be burning in hell!", n)]
  }

  function Step12(n: string): (r: seq<NpcResponse>)
    ensures r != [] && SpokenBy(r, n)
  {
    [Say("so as i said, we kind of need " +
         "a new maintainer of our technology " +
         "systems, stat."),
     Ask("are you interested in helping us?", ["yes", "Yes", "YES", "YES", "YES"])]
  }

  function Step13(n: string): (r: seq<NpcResponse>)
    ensures r != [] && SpokenBy(r, n)
  {
    [AskAs("OMG THANKS!!1!1! i knew you would help me, kind human!!", n, ["??????"])]
  }

  function Step14(n: string): (r: seq<NpcResponse>)
    ensures r != [] && SpokenBy(r, n)
  {
    [SayAs("from now on, you are our new system administrator!", n),
     Ask("do you think you are qualified for this job?",
         ["yeah!", "Of course!", "Definitely!"])]
  }

  function Step15(n: string): (r: seq<NpcResponse>)
    ensures r != [] && SpokenBy(r, n)
  {
    [AskAs("ok! i'll introduce your job to you soon.",
           n, ["Wait you're cheating!", "I didn't have a choice..."])]
  }

  function Step16(n: string): (r: seq<NpcResponse>)
    ensures r != [] && SpokenBy(r, n)
  {
    [SayAs("oh of course you don't have a choice.", n),
     Say("i am a literal god. i control this place.")]
  }

  function Step17(n: string): (r: seq<NpcResponse>)
    ensures r != [] && SpokenBy(r, n)
  {
    [AskAs("anyways, my name is BreeDFS. nice to meet you!",
           n, ["Oh, that's why you looked very familiar..."])]
  }

  function Step18(n: string): (r: seq<NpcResponse>)
    ensures r != [] && SpokenBy(r, n)
  {
    [SayAs("...what??", n)]
  }

  function Step19(n: string): (r: seq<NpcResponse>)
    ensures r != [] && SpokenBy(r, n)
  {
    [Say("...."),
     Say("let's just get to the point.")]
  }

  function Step20(n: string): (r: seq<NpcResponse>)
    ensures r != [] && SpokenBy(r, n)
  {
    [Say("to help you do your job, i have " + "unlocked a new feature for you."),
     Say("see the \"show terminal\" checkbox? " + "click on it and see what happens.")]
  }

  function Step21(n: string): (r: seq<NpcResponse>)
    ensures r != [] && SpokenBy(r, n)
  {
    [Say("isn't it cool?"),
     Say("the Terminal is what we use to do our jobs efficiently."),
     Say("we usually use \"commands\" to complete our tasks."),
     Ask("for example, right now you can " +
         "try some simple commands like " +
         "`help`.", ["Nice."])]
  }

  function Step22(n: string): (r: seq<NpcResponse>)
    ensures r != [] && SpokenBy(r, n)
  {
    [SayAs("as your \"access level\" increases, " +
           "you will unlock more powerful " +
           "commands.", n),
     Say("you can click on the \"details\" " +
         "button to see your access level " +
         "as well as some other stats.")]
  }

  function Step23(n: string): (r: seq<NpcResponse>)
    ensures r != [] && SpokenBy(r, n)
  {
    [Say("although you only have a few commands " +
         "available now, you should really " +
         "take your time to familiarize " +
         "yourself with the terminal!"),
     Ask("after you've mess around enough, " + "press the \"OK\" button below.", ["OK"])]
  }

  function Step24(n: string): (r: seq<NpcResponse>)
    ensures r != [] && SpokenBy(r, n)
  {
    [Say("that's about it! i gotta leave " + "now though... the rest is up to " + "you!")]
  }

  /** The story gate step `p` writes, if any. */
  function StepGate(p: nat): (g: Option<GameProgress>)
    ensures g.Some? <==> p == 0 || p == 20
    ensures g == Some(HasTerminal) <==> p == 20
  {
    if p == 0 then Some(HasPanel) else if p == 20 then Some(HasTerminal) else None
  }

  /** `interact`: remember a new choice, queue the step's responses, and move
      on one step (two steps when step 5 is answered with a non-zero choice). */
  function Interacted(s: AliceState, choice: Option<nat>): (t: AliceState)
    requires s.progress < SCRIPT_LENGTH
    ensures s.progress < t.progress <= SCRIPT_LENGTH
    ensures t.hitpoints == s.hitpoints && s.queue <= t.queue
  {
    var c := if choice.Some? then choice.value else s.previousChoice;
    var skip := if s.progress == 5 && c != 0 then 1 else 0;
    AliceState(s.progress + skip + 1, c, s.hitpoints, s.queue + StepMessages(s.progress, c))
  }

  /** Actions the script can take without reaching its `unreachable!()` arm. */
  predicate CanHandle(s: AliceState, a: PlayerAction)
  {
    a.Attack? || s.progress < SCRIPT_LENGTH
  }

  /** `handle_action`: the NPC after one action. */
  function Handled(s: AliceState, a: PlayerAction): (t: AliceState)
    requires CanHandle(s, a)
    ensures t.progress == s.progress <==> a.Attack?
    ensures s.queue <= t.queue
  {
    match a
    case Ping => Interacted(s, None)
    case Respond(c) => Interacted(s, Some(c))
    case Attack(d) => s.(hitpoints := s.hitpoints - d)
  }

  /** The story gate after one action, starting from `gp`. */
  function GateAfter(s: AliceState, a: PlayerAction, gp: GameProgress): (g: GameProgress)
    ensures g != gp ==> !a.Attack? && StepGate(s.progress) == Some(g)
  {
    if a.Attack? then gp
    else match StepGate(s.progress)
      case Some(g) => g
      case None => gp
  }

  /** `get_response`: the front of the outbox, and the NPC without it. */
  function PopResponse(s: AliceState): (Option<NpcResponse>, AliceState)
  {
    if s.queue == [] then (None, s) else (Some(s.queue[0]), s.(queue := s.queue[1..]))
  }

  // ---------------------------------------------------------------- one action

  /** What one action does to the NPC: an attack only lowers hitpoints; a ping
      keeps the remembered choice and a response replaces it; either moves the
      script forward by one step, or by two exactly when step 5 is answered
      with a non-zero choice, never past the end, and only appends to the outbox. */
  lemma HandledEffect(s: AliceState, a: PlayerAction)
    requires CanHandle(s, a)
    ensures var t := Handled(s, a);
      && (a.Attack? ==> t == s.(hitpoints := s.hitpoints - a.damage))
      && (a.Ping? ==> t.previousChoice == s.previousChoice)
      && (a.Respond? ==> t.previousChoice == a.choice)
      && (!a.Attack? ==>
            && t.hitpoints == s.hitpoints
            && s.progress < t.progress <= s.progress + 2
            && t.progress <= SCRIPT_LENGTH
            && (t.progress == s.progress + 2 <==> s.progress == 5 && t.previousChoice != 0))
      && |s.queue| <= |t.queue| && t.queue[..|s.queue|] == s.queue
  {
    var t := Handled(s, a);
    assert t.queue[..|s.queue|] == s.queue;
  }

  /** Only steps 0 and 20 move the story gate, to `HasPanel` and `HasTerminal`
      respectively; attacks never do. */
  lemma GateAfterEffect(s: AliceState, a: PlayerAction, gp: GameProgress)
    ensures var g := GateAfter(s, a, gp);
      && (!a.Attack? && s.progress == 0 ==> g == HasPanel)
      && (!a.Attack? && s.progress == 20 ==> g == HasTerminal)
      && (a.Attack? || (s.progress != 0 && s.progress != 20) ==> g == gp)
  {
  }

  /** The name "BreeDFS" is first spoken at the reveal step. */
  lemma StepSpeakerRevealed(p: nat, choice: nat)
    requires p < SCRIPT_LENGTH
    ensures forall i :: 0 <= i < |StepMessages(p, choice)| && StepMessages(p, choice)[i].name.Some? ==>
      (StepMessages(p, choice)[i].name.value == "BreeDFS" <==> p >= REVEAL_STEP)
  {
    assert "???" != "BreeDFS";
  }

  // ---------------------------------------------------------------- sequences of actions

  /** `acts` can be given one by one to the NPC starting at `s` without any
      of them reaching the end-of-script panic. */
  ghost predicate CanFeed(s: AliceState, acts: seq<PlayerAction>)
    decreases |acts|, 0
  {
    acts == [] ||
    (CanFeed(s, acts[..|acts| - 1]) && CanHandle(Feed(s, acts[..|acts| - 1]), acts[|acts| - 1]))
  }

  /** The NPC after the actions, in order. */
  ghost function Feed(s: AliceState, acts: seq<PlayerAction>): AliceState
    requires CanFeed(s, acts)
    decreases |acts|, 1
  {
    if acts == [] then s else Handled(Feed(s, acts[..|acts| - 1]), acts[|acts| - 1])
  }

  /** The story gate after the actions, in order. */
  ghost function FeedGate(s: AliceState, gp: GameProgress, acts: seq<PlayerAction>): GameProgress
    requires CanFeed(s, acts)
    decreases |acts|
  {
    if acts == [] then gp
    else
      var prefix := acts[..|acts| - 1];
      GateAfter(Feed(s, prefix), acts[|acts| - 1], FeedGate(s, gp, prefix))
  }

  /** Feeding two batches one after the other is feeding their concatenation. */
  lemma {:induction false} FeedAppend(s: AliceState, gp: GameProgress, a: seq<PlayerAction>, b: seq<PlayerAction>)
    requires CanFeed(s, a) && CanFeed(Feed(s, a), b)
    ensures CanFeed(s, a + b)
    ensures Feed(s, a + b) == Feed(Feed(s, a), b)
    ensures FeedGate(s, gp, a + b) == FeedGate(Feed(s, a), FeedGate(s, gp, a), b)
    decreases |b|
  {
    if b == [] {
      assert a + b == a;
    } else {
      var b' := b[..|b| - 1];
      assert (a + b)[..|a + b| - 1] == a + b';
      assert (a + b)[|a + b| - 1] == b[|b| - 1];
      FeedAppend(s, gp, a, b');
    }
  }

  /** A concatenation that can be fed splits into two batches that can be fed one after the other. */
  lemma {:induction false} CanFeedSplit(s: AliceState, a: seq<PlayerAction>, b: seq<PlayerAction>)
    requires CanFeed(s, a + b)
    ensures CanFeed(s, a) && CanFeed(Feed(s, a), b)
    decreases |b|
  {
    if b == [] {
      assert a + b == a;
    } else {
      var b' := b[..|b| - 1];
      assert (a + b)[..|a + b| - 1] == a + b';
      assert (a + b)[|a + b| - 1] == b[|b| - 1];
      CanFeedSplit(s, a, b');
      FeedAppend(s, Intro, a, b');
    }
  }

  /** Attacks can always be added after a batch that can be fed. */
  lemma {:induction false} CanFeedAttacks(s: AliceState, a: seq<PlayerAction>, attacks: seq<PlayerAction>)
    requires CanFeed(s, a)
    requires forall i :: 0 <= i < |attacks| ==> attacks[i].Attack?
    ensures CanFeed(s, a + attacks)
    decreases |attacks|
  {
    if attacks != [] {
      var p := attacks[..|attacks| - 1];
      assert (a + attacks)[..|a + attacks| - 1] == a + p;
      assert (a + attacks)[|a + attacks| - 1] == attacks[|attacks| - 1];
      CanFeedAttacks(s, a, p);
    } else {
      assert a + attacks == a;
    }
  }

  /** A batch that can be fed can be fed up to any point, and the action at
      that point can then be handled. */
  lemma {:induction false} CanFeedPrefix(s: AliceState, acts: seq<PlayerAction>, k: nat)
    requires CanFeed(s, acts) && k < |acts|
    ensures CanFeed(s, acts[..k]) && CanHandle(Feed(s, acts[..k]), acts[k])
    decreases |acts|
  {
    var init := acts[..|acts| - 1];
    if k < |acts| - 1 {
      assert init[..k] == acts[..k];
      assert init[k] == acts[k];
      CanFeedPrefix(s, init, k);
    }
  }

  /** Feeding a batch up to one point further is handling the next action. */
  lemma FeedNext(s: AliceState, gp: GameProgress, acts: seq<PlayerAction>, i: nat)
    requires CanFeed(s, acts) && i < |acts|
    ensures CanFeed(s, acts[..i]) && CanHandle(Feed(s, acts[..i]), acts[i])
    ensures CanFeed(s, acts[..i + 1])
    ensures Feed(s, acts[..i + 1]) == Handled(Feed(s, acts[..i]), acts[i])
    ensures FeedGate(s, gp, acts[..i + 1]) == GateAfter(Feed(s, acts[..i]), acts[i], FeedGate(s, gp, acts[..i]))
  {
    CanFeedPrefix(s, acts, i);
    assert acts[..i + 1][..i] == acts[..i];
  }

  function Pings(n: nat): seq<PlayerAction>
  {
    seq(n, _ => Ping)
  }

  lemma PingsSplit(m: nat, n: nat)
    ensures Pings(m) + Pings(n) == Pings(m + n)
  {
  }

  lemma PingsInit(n: nat)
    requires n > 0
    ensures Pings(n)[..n - 1] == Pings(n - 1)
  {
  }

  /** `n` pings move the script `n` steps, as long as they stay within the
      script and do not run step 5 with a non-zero remembered choice. */
  lemma {:induction false} PingsAdvance(s: AliceState, n: nat)
    requires s.progress + n <= SCRIPT_LENGTH
    requires s.progress <= 5 < s.progress + n ==> s.previousChoice == 0
    ensures CanFeed(s, Pings(n))
    ensures var t := Feed(s, Pings(n));
      t.progress == s.progress + n && t.previousChoice == s.previousChoice && t.hitpoints == s.hitpoints
    decreases n
  {
    if n > 0 {
      PingsInit(n);
      PingsAdvance(s, n - 1);
    }
  }

  /** Pings over steps that do not touch the story gate leave it alone. */
  lemma {:induction false} PingsKeepGate(s: AliceState, gp: GameProgress, n: nat)
    requires s.progress + n <= SCRIPT_LENGTH
    requires s.progress <= 5 < s.progress + n ==> s.previousChoice == 0
    requires !(s.progress <= 0 < s.progress + n) && !(s.progress <= 20 < s.progress + n)
    ensures CanFeed(s, Pings(n)) && FeedGate(s, gp, Pings(n)) == gp
    decreases n
  {
    PingsAdvance(s, n);
    if n > 0 {
      PingsInit(n);
      PingsAdvance(s, n - 1);
      PingsKeepGate(s, gp, n - 1);
      var t := Feed(s, Pings(n - 1));
      assert t.progress == s.progress + n - 1 && StepGate(t.progress) == None;
      assert FeedGate(s, gp, Pings(n)) == GateAfter(t, Ping, FeedGate(s, gp, Pings(n - 1)));
    }
  }

  /** A fresh NPC given nothing but pings finishes its job on the 25th and not before. */
  lemma PingsFinishScript()
    ensures CanFeed(Fresh(), Pings(25)) && JobDone(Feed(Fresh(), Pings(25)))
    ensures forall k :: 0 <= k < 25 ==> CanFeed(Fresh(), Pings(k)) && !JobDone(Feed(Fresh(), Pings(k)))
  {
    PingsAdvance(Fresh(), 25);
    forall k | 0 <= k < 25 ensures CanFeed(Fresh(), Pings(k)) && !JobDone(Feed(Fresh(), Pings(k))) {
      PingsAdvance(Fresh(), k);
    }
  }

  /** One ping is handling a ping. */
  lemma OnePing(s: AliceState, gp: GameProgress)
    requires s.progress < SCRIPT_LENGTH
    ensures CanFeed(s, Pings(1))
    ensures Feed(s, Pings(1)) == Handled(s, Ping)
    ensures FeedGate(s, gp, Pings(1)) == GateAfter(s, Ping, gp)
  {
    PingsInit(1);
  }

  /** After the first ping the script is at step 1, with no choice remembered. */
  lemma AfterFirstPing(gp: GameProgress)
    ensures CanFeed(Fresh(), Pings(1)) && FeedGate(Fresh(), gp, Pings(1)) == HasPanel
    ensures Feed(Fresh(), Pings(1)).progress == 1 && Feed(Fresh(), Pings(1)).previousChoice == 0
  {
    OnePing(Fresh(), gp);
  }

  /** The first ping opens the panel, and the next nineteen leave it so. */
  lemma PingsOpenPanel(gp: GameProgress)
    ensures CanFeed(Fresh(), Pings(1)) && FeedGate(Fresh(), gp, Pings(1)) == HasPanel
    ensures CanFeed(Fresh(), Pings(20)) && FeedGate(Fresh(), gp, Pings(20)) == HasPanel
  {
    AfterFirstPing(gp);
    var s1 := Feed(Fresh(), Pings(1));
    PingsKeepGate(s1, HasPanel, 19);
    FeedAppend(Fresh(), gp, Pings(1), Pings(19));
    PingsSplit(1, 19);
  }

  /** The 21st ping opens the terminal. */
  lemma TwentyFirstPingOpensTerminal(gp: GameProgress)
    ensures CanFeed(Fresh(), Pings(21)) && FeedGate(Fresh(), gp, Pings(21)) == HasTerminal
  {
    PingsOpenPanel(gp);
    PingsAdvance(Fresh(), 20);
    var s20 := Feed(Fresh(), Pings(20));
    OnePing(s20, HasPanel);
    FeedAppend(Fresh(), gp, Pings(20), Pings(1));
    PingsSplit(20, 1);
  }

  /** Once opened, the terminal stays open to the end of the script. */
  lemma PingsOpenTerminal(gp: GameProgress)
    ensures CanFeed(Fresh(), Pings(25)) && FeedGate(Fresh(), gp, Pings(25)) == HasTerminal
  {
    TwentyFirstPingOpensTerminal(gp);
    PingsAdvance(Fresh(), 21);
    var s21 := Feed(Fresh(), Pings(21));
    PingsKeepGate(s21, HasTerminal, 4);
    FeedAppend(Fresh(), gp, Pings(21), Pings(4));
    PingsSplit(21, 4);
  }

  /** Answering step 5 with choice 1 skips step 6: five pings, that answer and
      eighteen more pings, 24 actions in all, finish the job. */
  lemma RememberingSkipsStep()
    ensures var acts := Pings(5) + [Respond(1)] + Pings(18);
      |acts| == 24 && CanFeed(Fresh(), acts) && JobDone(Feed(Fresh(), acts))
  {
    PingsAdvance(Fresh(), 5);
    var s5 := Feed(Fresh(), Pings(5));
    assert CanFeed(s5, [Respond(1)]) && Feed(s5, [Respond(1)]) == Handled(s5, Respond(1)) by {
      assert [Respond(1)][..0] == [];
    }
    var s7 := Handled(s5, Respond(1));
    assert s7.progress == 7;
    FeedAppend(Fresh(), Intro, Pings(5), [Respond(1)]);
    PingsAdvance(s7, 18);
    FeedAppend(Fresh(), Intro, Pings(5) + [Respond(1)], Pings(18));
  }

  // ---------------------------------------------------------------- the outbox

  /** The responses `n` successive `get_response` calls return. */
  function Drain(s: AliceState, n: nat): seq<Option<NpcResponse>>
    decreases n
  {
    if n == 0 then [] else [PopResponse(s).0] + Drain(PopResponse(s).1, n - 1)
  }

  /** The outbox is first in, first out: draining an outbox that holds `q`
      returns `q` in order, whatever was queued after it, and then nothing
      once it is empty. */
  lemma {:induction false} DrainInOrder(s: AliceState, q: seq<NpcResponse>, later: seq<NpcResponse>, extra: nat)
    requires s.queue == q + later
    ensures |Drain(s, |q|)| == |q|
    ensures forall i :: 0 <= i < |q| ==> Drain(s, |q|)[i] == Some(q[i])
    ensures later == [] ==> Drain(s, |q| + extra) == Drain(s, |q|) + seq(extra, _ => None)
    decreases |q|
  {
    if q == [] {
      assert q + later == later;
      if later == [] {
        DrainEmpty(s, extra);
      }
    } else {
      var t := PopResponse(s).1;
      assert t.queue == q[1..] + later;
      DrainInOrder(t, q[1..], later, extra);
    }
  }

  lemma {:induction false} DrainEmpty(s: AliceState, n: nat)
    requires s.queue == []
    ensures Drain(s, n) == seq(n, _ => None)
    decreases n
  {
    if n > 0 {
      DrainEmpty(s, n - 1);
    }
  }

  // ---------------------------------------------------------------- the object

  /** The NPC object the game loop holds while an encounter is active. */
  class AliceNpc {
    var progress: nat
    var previousChoice: nat
    var hitpoints: int
    var messageQueue: seq<NpcResponse>

    function Snapshot(): AliceState
      reads this
    {
      AliceState(progress, previousChoice, hitpoints, messageQueue)
    }

    /** The script never runs past its last step. */
    ghost predicate Valid()
      reads this
    {
      progress <= SCRIPT_LENGTH
    }

    /** `AliceNpc::default()`. */
    constructor ()
      ensures Valid() && Snapshot() == Fresh()
    {
      progress := 0;
      previousChoice := 0;
      hitpoints := INT32_MAX;
      messageQueue := [];
    }

    /** `id()`. */
    function Id(): string
    {
      "alice"
    }

    /** `name()`. */
    function Name(): string
      reads this
    {
      NameAt(progress)
    }

    /** `info()`: it opens with the name the NPC goes by. */
    function Info(): (r: string)
      reads this
      ensures Name() <= r
    {
      InfoAt(progress)
    }

    /** `job_completed()`. */
    function JobCompleted(): bool
      reads this
    {
      JobDone(Snapshot())
    }

    /** `interact`: the script step for the current progress. */
    method Interact(gs: GameState, choice: Option<nat>)
      requires Valid() && progress < SCRIPT_LENGTH
      modifies this, gs`gameProgress
      ensures Valid()
      ensures Snapshot() == Interacted(old(Snapshot()), choice)
      ensures gs.gameProgress == GateAfter(old(Snapshot()), Ping, old(gs.gameProgress))
    {
      if choice.Some? {
        previousChoice := choice.value;
      }
      var c := previousChoice;
      messageQueue := messageQueue + StepMessages(progress, c);
      if progress == 0 {
        gs.gameProgress := HasPanel;
      } else if progress == 20 {
        gs.gameProgress := HasTerminal;
      }
      if progress == 5 && c != 0 {
        progress := progress + 1;
      }
      progress := progress + 1;
    }

    /** `handle_action`. */
    method HandleAction(action: PlayerAction, gs: GameState)
      requires Valid() && CanHandle(Snapshot(), action)
      modifies this, gs`gameProgress
      ensures Valid()
      ensures Snapshot() == Handled(old(Snapshot()), action)
      ensures gs.gameProgress == GateAfter(old(Snapshot()), action, old(gs.gameProgress))
    {
      match action
      case Ping => Interact(gs, None);
      case Attack(damage) => hitpoints := hitpoints - damage;
      case Respond(choice) => Interact(gs, Some(choice));
    }

    /** `get_response`: removes and returns the front of the outbox. */
    method GetResponse() returns (r: Option<NpcResponse>)
      modifies this`messageQueue
      ensures (r, Snapshot()) == PopResponse(old(Snapshot()))
    {
      if messageQueue == [] {
        r := None;
      } else {
        r := Some(messageQueue[0]);
        messageQueue := messageQueue[1..];
      }
    }
  }
}

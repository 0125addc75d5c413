/** The phrase database of the Slop Machine: each slop phrase, a better
    alternative, and the tier it belongs to. The older page (slop-machine.js)
    has the first 79 entries of the newer one (src/slop-machine.js). */
module SlopDatabase {

  datatype Pair = Pair(slop: string, better: string, tier: string)

  /** The four tiers the database uses. */
  predicate KnownTier(tier: string) {
    tier == "tier1" || tier == "tier2" || tier == "tier3" || tier == "stopwords"
  }

  predicate AllKnownTiers(db: seq<Pair>) {
    forall i :: 0 <= i < |db| ==> KnownTier(db[i].tier)
  }

  lemma AllKnownTiersAppend(a: seq<Pair>, b: seq<Pair>)
    requires AllKnownTiers(a) && AllKnownTiers(b)
    ensures AllKnownTiers(a + b)
  {
    assert forall i :: |a| <= i < |a + b| ==> (a + b)[i] == b[i - |a|];
  }

  const LegacyDatabasePart0: seq<Pair> := [
    Pair(@"delve into", @"explore, examine, or analyze", "tier1"),
    Pair(@"navigate the landscape", @"understand the situation, explore the field", "tier1"),
    Pair(@"paradigm shift", @"major change, fundamental shift", "tier1"),
    Pair(@"game-changer", @"significant advancement, important development", "tier1"),
    Pair(@"transformative", @"describe the actual change that occurred", "tier1"),
    Pair(@"unlock potential", @"enable, allow, make possible", "tier1"),
    Pair(@"seamlessly integrate", @"integrate, combine, work together", "tier1"),
    Pair(@"holistic approach", @"comprehensive method, complete strategy", "tier1"),
    Pair(@"robust solution", @"reliable system, strong approach", "tier1"),
    Pair(@"deep dive", @"detailed analysis, thorough examination", "tier1"),
    Pair(@"tapestry of", @"collection of, mixture of", "tier1"),
    Pair(@"realm of possibilities", @"opportunities, options", "tier1"),
    Pair(@"unprecedented", @"rare, unusual, or explain what makes it unique", "tier1"),
    Pair(@"groundbreaking", @"innovative, new, or explain the innovation", "tier1"),
    Pair(@"treasure trove", @"collection, resource, source", "tier1"),
    Pair(@"uncharted waters", @"new territory, unexplored area", "tier1"),
    Pair(@"shed light on", @"explain, clarify, reveal", "tier1"),
    Pair(@"at the end of the day", @"ultimately, finally, in conclusion", "tier1"),
    Pair(@"moving forward", @"in the future, next, from now on", "tier1"),
    Pair(@"key takeaways", @"main points, summary, conclusions", "tier1"),
    Pair(@"breakthrough", @"advancement, discovery, or explain what barrier was overcome", "tier1"),
    Pair(@"thrilling time to be alive", @"be specific about the advancement you're discussing", "tier1"),
    Pair(@"dazzling pace", @"rapid speed, fast rate", "tier1"),
    Pair(@"rewriting history", @"changing our understanding, creating new precedent", "tier1"),
    Pair(@"it's clear that", @"state your point directly without the preamble", "tier1")
  ]

  const LegacyDatabasePart1: seq<Pair> := [
    Pair(@"I'm excited to announce", @"just announce it directly", "stopwords"),
    Pair(@"thrilled to share", @"share it without the emotional wrapper", "stopwords"),
    Pair(@"proud to announce", @"remove the self-congratulation", "stopwords"),
    Pair(@"happy to share", @"skip the filler, share the content", "stopwords"),
    Pair(@"big news!", @"if it's important, explain why", "stopwords"),
    Pair(@"just launched", @"state what you launched and why it matters", "stopwords"),
    Pair(@"guess what?", @"state your point directly", "stopwords"),
    Pair(@"check out", @"describe what it is and why it matters", "stopwords"),
    Pair(@"can't wait to share", @"then share it without padding", "stopwords"),
    Pair(@"synergy", @"collaboration, cooperation, combined effort", "tier2"),
    Pair(@"leverage", @"use, apply, take advantage of", "tier2"),
    Pair(@"circle back", @"follow up, return to, revisit", "tier2"),
    Pair(@"low-hanging fruit", @"easy wins, simple tasks, quick improvements", "tier2"),
    Pair(@"move the needle", @"make progress, create impact, improve results", "tier2"),
    Pair(@"think outside the box", @"be creative, find new approaches, innovate", "tier2"),
    Pair(@"touch base", @"meet, discuss, check in", "tier2"),
    Pair(@"take it offline", @"discuss privately, continue later", "tier2"),
    Pair(@"pivot", @"change direction, adjust strategy, shift approach", "tier2"),
    Pair(@"disruptive", @"explain what it changes and how", "tier2"),
    Pair(@"bandwidth", @"time, capacity, availability", "tier2"),
    Pair(@"stakeholders", @"people involved, team members, participants", "tier2"),
    Pair(@"value-add", @"benefit, advantage, improvement", "tier2"),
    Pair(@"thought leader", @"expert, specialist, authority", "tier2"),
    Pair(@"best practices", @"effective methods, proven approaches", "tier2"),
    Pair(@"blue-sky thinking", @"creative thinking, brainstorming, ideation", "tier2")
  ]

  const LegacyDatabasePart2: seq<Pair> := [
    Pair(@"ideate", @"brainstorm, create ideas, think creatively", "tier2"),
    Pair(@"operationalize", @"implement, execute, put into practice", "tier2"),
    Pair(@"socialize", @"share, discuss, get feedback on", "tier2"),
    Pair(@"big data", @"large datasets, data analysis", "tier2"),
    Pair(@"digital transformation", @"adopting digital tools, modernizing technology", "tier2"),
    Pair(@"AI-powered", @"uses AI, incorporates machine learning", "tier2"),
    Pair(@"deliverables", @"outputs, results, products", "tier2"),
    Pair(@"empower", @"enable, allow, give authority to", "tier2"),
    Pair(@"optimize", @"improve, enhance, make more efficient", "tier2"),
    Pair(@"streamline", @"simplify, make efficient, improve process", "tier2"),
    Pair(@"amazing", @"use specific, measurable descriptors", "tier3"),
    Pair(@"incredible", @"provide concrete details instead", "tier3"),
    Pair(@"unbelievable", @"describe what makes it remarkable", "tier3"),
    Pair(@"mind-blowing", @"explain the impact or innovation", "tier3"),
    Pair(@"revolutionary", @"describe the actual change", "tier3"),
    Pair(@"miracle", @"unexpected result, surprising outcome", "tier3"),
    Pair(@"best-in-class", @"leading, top-performing, highest-rated", "tier3"),
    Pair(@"click here", @"describe what they'll see/get", "tier3"),
    Pair(@"buy now", @"explain the value proposition", "tier3"),
    Pair(@"limited time offer", @"state the specific deadline", "tier3"),
    Pair(@"guaranteed", @"explain the terms clearly", "tier3"),
    Pair(@"risk-free", @"describe the policy explicitly", "tier3"),
    Pair(@"must-have", @"explain why it's necessary", "tier3"),
    Pair(@"next-level", @"describe the improvement", "tier3"),
    Pair(@"raise the bar", @"set new standards, improve expectations", "tier3")
  ]

  const LegacyDatabasePart3: seq<Pair> := [
    Pair(@"basically", @"remove it or be more precise", "tier3"),
    Pair(@"essentially", @"remove it or be more specific", "tier3"),
    Pair(@"actually", @"often unnecessary - remove it", "tier3"),
    Pair(@"em dash (—)", @"use periods, commas, or remove the dramatic pause", "tier1")
  ]

  /** The database of the older page (slop-machine.js). */
  const LegacyDatabase: seq<Pair> :=
    LegacyDatabasePart0 + LegacyDatabasePart1 + LegacyDatabasePart2 + LegacyDatabasePart3

  const AdditionalEntriesPart0: seq<Pair> := [
    Pair(@"landscape is changing", @"be specific about what changed", "tier1"),
    Pair(@"ever-changing world", @"specify the change or time period", "tier1"),
    Pair(@"fast-paced environment", @"describe what makes it fast-paced", "tier1"),
    Pair(@"crucial to understand", @"state your point directly", "tier1"),
    Pair(@"vital to recognize", @"remove the preamble, make your point", "tier1"),
    Pair(@"important to note that", @"just state the fact", "tier1"),
    Pair(@"worth mentioning", @"if it's worth mentioning, just mention it", "tier1"),
    Pair(@"proven track record", @"cite specific achievements or metrics", "tier1"),
    Pair(@"time-tested", @"state how long and what outcomes", "tier1"),
    Pair(@"tried and true", @"cite specific results or history", "tier1"),
    Pair(@"exciting times ahead", @"describe what's coming specifically", "tier1"),
    Pair(@"bright future", @"explain what makes it bright", "tier1"),
    Pair(@"promising outlook", @"specify the promise", "tier1"),
    Pair(@"poised to become", @"state what it is now and when", "tier1"),
    Pair(@"set to revolutionize", @"describe the actual change", "tier1"),
    Pair(@"on the brink of", @"state the situation clearly", "tier1"),
    Pair(@"heralds a new era", @"describe what's different", "tier1"),
    Pair(@"ushers in change", @"describe the change", "tier1"),
    Pair(@"watershed moment", @"explain why it matters", "tier1"),
    Pair(@"inflection point", @"describe the turning point", "tier1"),
    Pair(@"tipping point", @"explain what tipped and why", "tier1"),
    Pair(@"perfect storm", @"list the specific factors", "tier1"),
    Pair(@"convergence of", @"list what is combining", "tier1"),
    Pair(@"at the forefront", @"explain the leadership position", "tier1"),
    Pair(@"spearheading", @"describe the leadership role", "tier1")
  ]

  const AdditionalEntriesPart1: seq<Pair> := [
    Pair(@"pioneering", @"explain what is new or first", "tier1"),
    Pair(@"trailblazing", @"describe the new path", "tier1"),
    Pair(@"industry-leading", @"cite metrics or rankings", "tier1"),
    Pair(@"market-leading", @"provide market share data", "tier1"),
    Pair(@"world-class", @"cite comparative metrics", "tier1"),
    Pair(@"best-of-breed", @"specify which features are best", "tier1"),
    Pair(@"bleeding-edge", @"explain what's new about it", "tier1"),
    Pair(@"future-proof", @"explain adaptability features", "tier1"),
    Pair(@"forward-thinking", @"describe the strategy", "tier1"),
    Pair(@"visionary approach", @"describe the vision", "tier1"),
    Pair(@"strategic imperative", @"explain why it's necessary", "tier1"),
    Pair(@"key differentiator", @"state what makes it different", "tier1"),
    Pair(@"fundamentally different", @"describe the difference", "tier1"),
    Pair(@"dramatically improved", @"provide specific metrics", "tier1"),
    Pair(@"exponential growth", @"cite actual growth numbers", "tier1"),
    Pair(@"unique opportunity", @"explain what makes it unique", "tier1"),
    Pair(@"compelling case", @"present the evidence", "tier1"),
    Pair(@"undeniably", @"present facts, let them speak", "tier1"),
    Pair(@"beyond doubt", @"state your conclusion directly", "tier1"),
    Pair(@"needless to say", @"then don't say it, or just say it", "tier1"),
    Pair(@"it goes without saying", @"obviously it doesn't - just say it", "tier1"),
    Pair(@"long story short", @"tell the short story then", "tier1"),
    Pair(@"cutting to the chase", @"just do it", "tier1"),
    Pair(@"bottom line", @"state the conclusion", "tier1"),
    Pair(@"gaining traction", @"cite adoption metrics", "tier1")
  ]

  const AdditionalEntriesPart2: seq<Pair> := [
    Pair(@"picking up momentum", @"provide growth data", "tier1"),
    Pair(@"on an upward trajectory", @"show the trend with data", "tier1"),
    Pair(@"skyrocketing", @"provide actual numbers", "tier1"),
    Pair(@"meteoric rise", @"cite growth rate and timeline", "tier1"),
    Pair(@"unprecedented growth", @"provide historical comparison", "tier1"),
    Pair(@"record-breaking", @"cite the previous record and new one", "tier1"),
    Pair(@"bar-setting", @"explain what bar was set", "tier1"),
    Pair(@"industry-defining", @"explain how it defined industry", "tier1"),
    Pair(@"alignment", @"agreement, coordination", "tier2"),
    Pair(@"get on the same page", @"agree, coordinate, clarify", "tier2"),
    Pair(@"win-win", @"mutually beneficial, both parties benefit", "tier2"),
    Pair(@"cross-functional", @"multiple departments, various teams", "tier2"),
    Pair(@"end-to-end solution", @"complete system, full process", "tier2"),
    Pair(@"one-stop-shop", @"single provider, all services included", "tier2"),
    Pair(@"turnkey solution", @"ready to use, complete system", "tier2"),
    Pair(@"plug-and-play", @"ready to use, no setup needed", "tier2"),
    Pair(@"out-of-the-box", @"included by default, standard feature", "tier2"),
    Pair(@"full-stack", @"complete system, all layers", "tier2"),
    Pair(@"hands on deck", @"everyone working, full team effort", "tier2"),
    Pair(@"rolling up sleeves", @"getting to work, taking action", "tier2"),
    Pair(@"gold standard", @"highest quality, best example", "tier2"),
    Pair(@"enterprise-grade", @"reliable, secure, scalable", "tier2"),
    Pair(@"production-ready", @"stable, tested, deployable", "tier2"),
    Pair(@"battle-tested", @"proven in production, reliable", "tier2"),
    Pair(@"frictionless", @"smooth, easy, simple", "tier2")
  ]

  const AdditionalEntriesPart3: seq<Pair> := [
    Pair(@"effortlessly", @"easily, simply, smoothly", "tier2"),
    Pair(@"transparency", @"visibility, clarity, openness", "tier2"),
    Pair(@"actionable insights", @"useful data, clear recommendations", "tier2"),
    Pair(@"data-backed", @"supported by data, evidence-based", "tier2"),
    Pair(@"first principles", @"fundamental approach, basics-first", "tier2"),
    Pair(@"purpose-built", @"designed specifically for, custom-made", "tier2"),
    Pair(@"bespoke", @"custom, tailored, customized", "tier2"),
    Pair(@"white-glove service", @"premium support, personalized service", "tier2"),
    Pair(@"24/7", @"always available, continuous", "tier2"),
    Pair(@"high-availability", @"rarely down, reliable uptime", "tier2"),
    Pair(@"fault-tolerant", @"handles failures, stays running", "tier2"),
    Pair(@"self-healing", @"auto-recovery, automatic fixes", "tier2"),
    Pair(@"auto-scaling", @"adjusts capacity automatically", "tier2"),
    Pair(@"on-demand", @"when needed, available immediately", "tier2"),
    Pair(@"cloud-native", @"built for cloud, designed for distributed systems", "tier2"),
    Pair(@"microservices", @"small services, modular architecture", "tier2"),
    Pair(@"serverless", @"no server management, managed infrastructure", "tier2"),
    Pair(@"real-time", @"immediate, instant, no delay", "tier2"),
    Pair(@"lightning-fast", @"very fast (cite actual speed)", "tier2"),
    Pair(@"low-latency", @"fast response (cite milliseconds)", "tier2"),
    Pair(@"performant", @"fast, efficient (provide metrics)", "tier2"),
    Pair(@"modular", @"separable components, independent parts", "tier2"),
    Pair(@"extensible", @"can be expanded, supports additions", "tier2"),
    Pair(@"adaptable", @"adjusts to needs, configurable", "tier2"),
    Pair(@"no-code", @"visual configuration, no programming needed", "tier2")
  ]

  const AdditionalEntriesPart4: seq<Pair> := [
    Pair(@"low-code", @"minimal programming, mostly visual", "tier2"),
    Pair(@"drag-and-drop", @"visual interface, mouse-driven", "tier2"),
    Pair(@"user-friendly", @"easy to use, intuitive", "tier2"),
    Pair(@"awesome", @"be specific about what makes it good", "tier3"),
    Pair(@"fantastic", @"describe the actual features", "tier3"),
    Pair(@"spectacular", @"cite specific achievements", "tier3"),
    Pair(@"phenomenal", @"provide measurable results", "tier3"),
    Pair(@"outstanding", @"explain what stands out", "tier3"),
    Pair(@"exceptional", @"describe the exception", "tier3"),
    Pair(@"extraordinary", @"compare to ordinary alternatives", "tier3"),
    Pair(@"stunning", @"provide concrete details", "tier3"),
    Pair(@"insanely good", @"use specific, measurable terms", "tier3"),
    Pair(@"epic", @"describe scope or scale specifically", "tier3"),
    Pair(@"legendary", @"cite the history or legacy", "tier3"),
    Pair(@"10x", @"provide actual comparison metrics", "tier3"),
    Pair(@"secrets to success", @"specific methods, proven techniques", "tier3"),
    Pair(@"hidden gems", @"underused features, lesser-known options", "tier3"),
    Pair(@"insider tips", @"expert advice, advanced techniques", "tier3"),
    Pair(@"exclusive access", @"early access, limited availability", "tier3"),
    Pair(@"VIP treatment", @"premium features, priority support", "tier3"),
    Pair(@"elite members", @"premium tier, advanced users", "tier3"),
    Pair(@"early bird", @"launch discount, introductory price", "tier3"),
    Pair(@"don't miss out", @"available until [date], limited quantity", "tier3"),
    Pair(@"FOMO", @"state the actual deadline or limit", "tier3"),
    Pair(@"hurry", @"ends [specific date/time]", "tier3")
  ]

  const AdditionalEntriesPart5: seq<Pair> := [
    Pair(@"fast-track", @"expedited process, priority handling", "tier3"),
    Pair(@"shortcuts", @"efficient methods, time-saving techniques", "tier3"),
    Pair(@"life hacks", @"time-saving tips, efficiency methods", "tier3"),
    Pair(@"growth hacking", @"rapid experimentation, data-driven marketing", "tier3"),
    Pair(@"master class", @"expert training, advanced course", "tier3"),
    Pair(@"blueprint", @"detailed plan, step-by-step guide", "tier3"),
    Pair(@"foolproof", @"reliable method, proven process", "tier3"),
    Pair(@"no-brainer", @"obvious choice, clear benefit", "tier3"),
    Pair(@"overnight success", @"cite actual timeline and effort", "tier3"),
    Pair(@"instant results", @"state actual timeframe", "tier3"),
    Pair(@"right now", @"specify when it's available", "tier3"),
    Pair(@"don't delay", @"available until [date]", "tier3"),
    Pair(@"take action now", @"sign up by [date], offer ends [date]", "tier3"),
    Pair(@"try it free", @"free trial until [date], no credit card required", "tier3"),
    Pair(@"cancel anytime", @"no long-term contract, month-to-month", "tier3"),
    Pair(@"money-back guarantee", @"refund within [X] days if unsatisfied", "tier3"),
    Pair(@"100% free", @"no cost, no payment required", "tier3"),
    Pair(@"no catch", @"transparent pricing, clear terms", "tier3"),
    Pair(@"trusted by millions", @"cite actual user count and source", "tier3"),
    Pair(@"award-winning", @"won [specific award] in [year]", "tier3"),
    Pair(@"#1 rated", @"top-rated by [source], ranked #1 on [platform]", "tier3"),
    Pair(@"5-star reviews", @"average rating of X from Y reviews", "tier3"),
    Pair(@"transform your life", @"describe specific improvements", "tier3"),
    Pair(@"change your life", @"detail the expected changes", "tier3"),
    Pair(@"unlock your potential", @"develop [specific skills]", "tier3")
  ]

  const AdditionalEntriesPart6: seq<Pair> := [
    Pair(@"discover how", @"state directly what they'll learn", "tier3"),
    Pair(@"learn the secret", @"teach [specific skill or method]", "tier3"),
    Pair(@"find out why", @"explain the reason directly", "tier3"),
    Pair(@"learn more", @"see full details, view documentation", "tier3"),
    Pair(@"get started", @"create account, sign up now", "tier3"),
    Pair(@"kickstart your", @"begin [specific activity]", "tier3"),
    Pair(@"boost your", @"improve [specific metric] by [amount]", "tier3"),
    Pair(@"double your", @"2x increase in [specific metric]", "tier3")
  ]

  /** The entries only the newer page has. */
  const AdditionalEntries: seq<Pair> :=
    AdditionalEntriesPart0 + AdditionalEntriesPart1 + AdditionalEntriesPart2 + AdditionalEntriesPart3 + AdditionalEntriesPart4 + AdditionalEntriesPart5 + AdditionalEntriesPart6

  /** The database of the newer page (src/slop-machine.js). */
  const Database: seq<Pair> := LegacyDatabase + AdditionalEntries

  lemma LegacyDatabasePart0Tiers()
    ensures AllKnownTiers(LegacyDatabasePart0)
  {
    assert forall i :: 0 <= i < |LegacyDatabasePart0| ==> KnownTier(LegacyDatabasePart0[i].tier);
  }

  lemma LegacyDatabasePart1Tiers()
    ensures AllKnownTiers(LegacyDatabasePart1)
  {
    assert forall i :: 0 <= i < |LegacyDatabasePart1| ==> KnownTier(LegacyDatabasePart1[i].tier);
  }

  lemma LegacyDatabasePart2Tiers()
    ensures AllKnownTiers(LegacyDatabasePart2)
  {
    assert forall i :: 0 <= i < |LegacyDatabasePart2| ==> KnownTier(LegacyDatabasePart2[i].tier);
  }

  lemma LegacyDatabasePart3Tiers()
    ensures AllKnownTiers(LegacyDatabasePart3)
  {
    assert forall i :: 0 <= i < |LegacyDatabasePart3| ==> KnownTier(LegacyDatabasePart3[i].tier);
  }

  lemma AdditionalEntriesPart0Tiers()
    ensures AllKnownTiers(AdditionalEntriesPart0)
  {
    assert forall i :: 0 <= i < |AdditionalEntriesPart0| ==> KnownTier(AdditionalEntriesPart0[i].tier);
  }

  lemma AdditionalEntriesPart1Tiers()
    ensures AllKnownTiers(AdditionalEntriesPart1)
  {
    assert forall i :: 0 <= i < |AdditionalEntriesPart1| ==> KnownTier(AdditionalEntriesPart1[i].tier);
  }

  lemma AdditionalEntriesPart2Tiers()
    ensures AllKnownTiers(AdditionalEntriesPart2)
  {
    assert forall i :: 0 <= i < |AdditionalEntriesPart2| ==> KnownTier(AdditionalEntriesPart2[i].tier);
  }

  lemma AdditionalEntriesPart3Tiers()
    ensures AllKnownTiers(AdditionalEntriesPart3)
  {
    assert forall i :: 0 <= i < |AdditionalEntriesPart3| ==> KnownTier(AdditionalEntriesPart3[i].tier);
  }

  lemma AdditionalEntriesPart4Tiers()
    ensures AllKnownTiers(AdditionalEntriesPart4)
  {
    assert forall i :: 0 <= i < |AdditionalEntriesPart4| ==> KnownTier(AdditionalEntriesPart4[i].tier);
  }

  lemma AdditionalEntriesPart5Tiers()
    ensures AllKnownTiers(AdditionalEntriesPart5)
  {
    assert forall i :: 0 <= i < |AdditionalEntriesPart5| ==> KnownTier(AdditionalEntriesPart5[i].tier);
  }

  lemma AdditionalEntriesPart6Tiers()
    ensures AllKnownTiers(AdditionalEntriesPart6)
  {
    assert forall i :: 0 <= i < |AdditionalEntriesPart6| ==> KnownTier(AdditionalEntriesPart6[i].tier);
  }

  /** The older database has 79 entries, each in one of the four tiers. */
  lemma LegacyDatabaseTiers()
    ensures |LegacyDatabase| == 79 && AllKnownTiers(LegacyDatabase)
  {
    LegacyDatabasePart0Tiers();
    LegacyDatabasePart1Tiers();
    LegacyDatabasePart2Tiers();
    LegacyDatabasePart3Tiers();
    AllKnownTiersAppend(LegacyDatabasePart0, LegacyDatabasePart1);
    AllKnownTiersAppend(LegacyDatabasePart0 + LegacyDatabasePart1, LegacyDatabasePart2);
    AllKnownTiersAppend(LegacyDatabasePart0 + LegacyDatabasePart1 + LegacyDatabasePart2, LegacyDatabasePart3);
  }

  lemma AdditionalEntriesTiers()
    ensures |AdditionalEntries| == 158 && AllKnownTiers(AdditionalEntries)
  {
    AdditionalEntriesPart0Tiers();
    AdditionalEntriesPart1Tiers();
    AdditionalEntriesPart2Tiers();
    AdditionalEntriesPart3Tiers();
    AdditionalEntriesPart4Tiers();
    AdditionalEntriesPart5Tiers();
    AdditionalEntriesPart6Tiers();
    AllKnownTiersAppend(AdditionalEntriesPart0, AdditionalEntriesPart1);
    AllKnownTiersAppend(AdditionalEntriesPart0 + AdditionalEntriesPart1, AdditionalEntriesPart2);
    AllKnownTiersAppend(AdditionalEntriesPart0 + AdditionalEntriesPart1 + AdditionalEntriesPart2, AdditionalEntriesPart3);
    AllKnownTiersAppend(AdditionalEntriesPart0 + AdditionalEntriesPart1 + AdditionalEntriesPart2 + AdditionalEntriesPart3, AdditionalEntriesPart4);
    AllKnownTiersAppend(AdditionalEntriesPart0 + AdditionalEntriesPart1 + AdditionalEntriesPart2 + AdditionalEntriesPart3 + AdditionalEntriesPart4, AdditionalEntriesPart5);
    AllKnownTiersAppend(AdditionalEntriesPart0 + AdditionalEntriesPart1 + AdditionalEntriesPart2 + AdditionalEntriesPart3 + AdditionalEntriesPart4 + AdditionalEntriesPart5, AdditionalEntriesPart6);
  }

  /** The newer database has 237 entries, each in one of the four tiers. */
  lemma DatabaseTiers()
    ensures |Database| == 237 && AllKnownTiers(Database)
  {
    LegacyDatabaseTiers();
    AdditionalEntriesTiers();
    AllKnownTiersAppend(LegacyDatabase, AdditionalEntries);
  }

}

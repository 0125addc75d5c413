/** The pattern catalogue: the regular expressions each scorer counts, as
    they are written in src/content.js, src/checker.js and the older copy
    checker.js. Lists that the files share are declared once. */
module Catalogue {

  import opened Patterns

  // ---------------------------------------------------------------------
  // Tier lists shared by the content script (src/content.js) and the checker (src/checker.js)
  // ---------------------------------------------------------------------

  const LowAggroLeadPart0: seq<Regex> := [
    Regex(@"\bdelve into\b", "gi"),
    Regex(@"\bdelving into (the )?(intricacies|complexities)\b", "gi"),
    Regex(@"\bnavigat(e|ing) (the|this) (complex )?(landscape|realm|world)\b", "gi"),
    Regex(@"\bin (today's|the) (rapidly )?evolving (landscape|world|market|era)\b", "gi"),
    Regex(@"\bin today's (digital|modern|fast-paced) (world|landscape|era)\b", "gi"),
    Regex(@"\bembark on (a|this|your) journey\b", "gi"),
    Regex(@"\btapestry of\b", "gi"),
    Regex(@"\brealm of possibilities\b", "gi"),
    Regex(@"\bthe (beauty|power|importance) lies in\b", "gi"),
    Regex(@"\bultimately,? (the )?(choice|decision) is yours\b", "gi"),
    Regex(@"\bmultifaceted (nature|approach|aspect)\b", "gi"),
    Regex(@"\bholistic(ally)? (approach|perspective|view)\b", "gi"),
    Regex(@"\bseamlessly integrat(e|ing|ed)\b", "gi"),
    Regex(@"\bunlock (the potential|new possibilities|unprecedented)\b", "gi"),
    Regex(@"\bfoster (innovation|growth|collaboration)\b", "gi"),
    Regex(@"\bintricate (details|balance|web)\b", "gi"),
    Regex(@"\bnuanced (understanding|approach|perspective)\b", "gi"),
    Regex(@"\bmeticulous (attention|planning|care)\b", "gi"),
    Regex(@"\bever-evolving (landscape|world|field)\b", "gi"),
    Regex(@"\bdynamic (environment|landscape|nature)\b", "gi"),
    Regex(@"\bpivotal (role|moment|point)\b", "gi"),
    Regex(@"\bin the grand scheme of things\b", "gi"),
    Regex(@"\bcornerstones? of\b", "gi"),
    Regex(@"\bkey takeaways?\b", "gi"),
    Regex(@"\bexplore (the|various) facets of\b", "gi")
  ]

  const LowAggroLeadPart1: seq<Regex> := [
    Regex(@"\btransformative (power|potential|impact|insights)\b", "gi"),
    Regex(@"\bgame-?chang(er|ing)\b", "gi"),
    Regex(@"\bparadigm shift\b", "gi"),
    Regex(@"\bgroundbreaking\b", "gi"),
    Regex(@"\bunprecedented\b", "gi"),
    Regex(@"\brobust (solution|framework|system|approach)\b", "gi"),
    Regex(@"\bcomprehensive (guide|overview|analysis|approach)\b", "gi"),
    Regex(@"\bleverage (the power|cutting-edge)\b", "gi"),
    Regex(@"\bit'?s (important|worth|essential) to (note|consider|understand) that\b", "gi"),
    Regex(@"\bin this article,? (we will|we'll|I'll|I will)\b", "gi"),
    Regex(@"\bthroughout (this|the) (article|guide|post)\b", "gi"),
    Regex(@"\bas an AI (language model|assistant)\b", "gi"),
    Regex(@"\bI (don't|do not|cannot|can't) have (personal|real-time|access to)\b", "gi"),
    Regex(@"\bcannot be overstated\b", "gi"),
    Regex(@"\bdeep dive into\b", "gi"),
    Regex(@"\bshed(ding)? light on\b", "gi"),
    Regex(@"\bunparalleled\b", "gi"),
    Regex(@"\btreasure trove\b", "gi"),
    Regex(@"\buncharted waters\b", "gi"),
    Regex(@"\bstate-of-the-art\b", "gi"),
    Regex(@"\bcutting[- ]edge\b", "gi"),
    Regex(@"\bnext frontier\b", "gi"),
    Regex(@"\bthought[- ]provoking\b", "gi"),
    Regex(@"\bat the end of the day\b", "gi"),
    Regex(@"\baction(able)? insights?\b", "gi")
  ]

  const LowAggroLeadPart2: seq<Regex> := [
    Regex(@"\bin conclusion\b", "gi"),
    Regex(@"\bin summary\b", "gi"),
    Regex(@"\bto summarize\b", "gi"),
    Regex(@"\bmoving forward\b", "gi"),
    Regex(@"\bgoing forward\b", "gi")
  ]

  /** Tier 1 entries before the first line-anchored opener. */
  const LowAggroLead: seq<Regex> :=
    LowAggroLeadPart0 + LowAggroLeadPart1 + LowAggroLeadPart2

  /** A summary opener at the start of a line, written without the `g` flag. One capturing group. */
  const ConclusionOpener: Regex := Regex(@"^(In conclusion|In summary|To summarize|Ultimately),?\s", "mi")

  const LowAggroMiddlePart0: seq<Regex> := [
    Regex(@"\bNot only .{10,50} but (also)?\b", "gi"),
    Regex(@"\bIt'?s not (just )?about .{5,30},? it'?s\b", "gi"),
    Regex(@"\bDespite (its|their) .{5,30},? .{5,30} faces? challenges?\b", "gi"),
    Regex(@"\bFuture Prospects?:?\b", "gi"),
    Regex(@"\b(Furthermore|Moreover|Additionally|Consequently|Nevertheless|Nonetheless),?\s", "gi")
  ]

  /** Tier 1 entries between the openers. */
  const LowAggroMiddle: seq<Regex> :=
    LowAggroMiddlePart0

  /** "As/In/With ... continues to / has become" at the start of a line, written without the `g` flag. Two capturing groups. */
  const ContinuesToOpener: Regex := Regex(@"^(As |In |With |Through |During |From ).{20,60}(continues? to|has become|have become|is becoming)\b", "mi")

  /** "In today's ... world" at the start of a line, written without the `g` flag. No capturing group. */
  const TodaysWorldOpener: Regex := Regex(@"^In today's .{10,40} world,?\s", "mi")

  const LowAggroTrailingPart0: seq<Regex> := [
    Regex(@"\b\d+\s+(ways|reasons|tips|tricks|secrets|hacks|benefits|advantages)\s+to\b", "gi"),
    Regex(@"\b(Top|Best)\s+\d+\b", "gi"),
    Regex(@"\bUltimate guide to\b", "gi"),
    Regex(@"\bEverything you need to know about\b", "gi"),
    Regex(@"\bBeginner'?s guide to\b", "gi"),
    Regex(@"\bSomething shifted\b", "gi"),
    Regex(@"\bEverything changed\b", "gi"),
    Regex(@"\bBut here'?s the thing\b", "gi"),
    Regex(@"\bHere'?s what (I|you|we) learned\b", "gi"),
    Regex(@"\bbreakthrough(s)?\b", "gi"),
    Regex(@"\bgiant leap\b", "gi"),
    Regex(@"\bexciting (possibilities|advances|opportunities|future)\b", "gi"),
    Regex(@"\bdazzling (pace|speed|rate)\b", "gi"),
    Regex(@"\bthrilling time to be alive\b", "gi"),
    Regex(@"\badvanced .{5,30} (technology|system|solution|method)\b", "gi"),
    Regex(@"\bstunning (results|advances|breakthroughs|discoveries)\b", "gi"),
    Regex(@"\breal[- ]world (impact|advances|applications|use)\b", "gi"),
    Regex(@"\bpositioning .{5,30} as game[- ]changer", "gi"),
    Regex(@"\bpace is accelerat(ing|ed)\b", "gi"),
    Regex(@"\bcould soon become\b", "gi"),
    Regex(@"\bopens .{5,30} possibilities\b", "gi"),
    Regex(@"\breignites? debates? about\b", "gi"),
    Regex(@"\bneed for new (regulations|laws|rules|policies)\b", "gi"),
    Regex(@"\brewriting (history|the books)\b", "gi"),
    Regex(@"\bprompting new questions about\b", "gi")
  ]

  const LowAggroTrailingPart1: seq<Regex> := [
    Regex(@"\bit'?s clear that\b", "gi"),
    Regex(@"\btruly (is|are) a .{5,30} time\b", "gi"),
    Regex(@"\bwhether it'?s .{10,50} or .{10,50}, it\b", "gi"),
    Regex(@"\bfrom .{5,30} to .{5,30}, (it|this|these)\b", "gi"),
    Regex(@"\bIntroducing .{5,30}, the (first|next|future)\b", "gi"),
    Regex(@"\bImagine .{10,50} — that'?s\b", "gi"),
    Regex(@"\bFor (decades|years), .{10,50} seemed like\b", "gi"),
    Regex(@"\bin 20\d{2}, it'?s\b", "gi"),
    Regex(@"\bNot all .{5,30} discoveries are\b", "gi"),
    Regex(@"\bscience fiction .{5,30} but in 20\d{2}\b", "gi")
  ]

  /** The remaining entries of the content script's Tier 1 list. */
  const LowAggroTrailing: seq<Regex> :=
    LowAggroTrailingPart0 + LowAggroTrailingPart1

  /** The content script's Tier 1 list (AI-specific phrases and structures,
      3 points per match); the checker's Tier 1 list starts with it. */
  const LowAggro: seq<Regex> :=
    LowAggroLead + [ConclusionOpener] + LowAggroMiddle + [ContinuesToOpener, TodaysWorldOpener] + LowAggroTrailing

  const MediumAggroPart0: seq<Regex> := [
    Regex(@"\bsynergy\b", "gi"),
    Regex(@"\bleverage\b", "gi"),
    Regex(@"\bcircle back\b", "gi"),
    Regex(@"\blow[- ]hanging fruit\b", "gi"),
    Regex(@"\bmove the needle\b", "gi"),
    Regex(@"\bthink outside the box\b", "gi"),
    Regex(@"\btouch base\b", "gi"),
    Regex(@"\btake (it|this) offline\b", "gi"),
    Regex(@"\bpivot\b", "gi"),
    Regex(@"\bdisrupt(ive)?\b", "gi"),
    Regex(@"\bscale\b", "gi"),
    Regex(@"\bagile\b", "gi"),
    Regex(@"\bbandwidth\b", "gi"),
    Regex(@"\bcore competenc(y|ies)\b", "gi"),
    Regex(@"\bstakeholders?\b", "gi"),
    Regex(@"\bvalue[- ]add\b", "gi"),
    Regex(@"\bthought leader(ship)?\b", "gi"),
    Regex(@"\bbest practices?\b", "gi"),
    Regex(@"\bblue[- ]sky thinking\b", "gi"),
    Regex(@"\bboil the ocean\b", "gi"),
    Regex(@"\bdrink the kool[- ]aid\b", "gi"),
    Regex(@"\bducks in a row\b", "gi"),
    Regex(@"\blow[- ]level\b", "gi"),
    Regex(@"\bhigh[- ]level\b", "gi"),
    Regex(@"\b30,?000[- ]foot view\b", "gi")
  ]

  const MediumAggroPart1: seq<Regex> := [
    Regex(@"\bideate\b", "gi"),
    Regex(@"\boperationalize\b", "gi"),
    Regex(@"\bsocialize\b", "gi"),
    Regex(@"\bright[- ]?siz(e|ing)\b", "gi"),
    Regex(@"\bin the weeds\b", "gi"),
    Regex(@"\bon (my|your|our) radar\b", "gi"),
    Regex(@"\bseat at the table\b", "gi"),
    Regex(@"\bskin in the game\b", "gi"),
    Regex(@"\brun (it )?up the flagpole\b", "gi"),
    Regex(@"\bthrow under the bus\b", "gi"),
    Regex(@"\brock ?star\b", "gi"),
    Regex(@"\bninja\b", "gi"),
    Regex(@"\bguru\b", "gi"),
    Regex(@"\bbig data\b", "gi"),
    Regex(@"\bdigital transformation\b", "gi"),
    Regex(@"\bAI[- ]powered\b", "gi"),
    Regex(@"\bcloud[- ]based\b", "gi"),
    Regex(@"\bblockchain[- ]enabled\b", "gi"),
    Regex(@"\bnext[- ]gen(eration)?\b", "gi"),
    Regex(@"\bdata[- ]driven\b", "gi"),
    Regex(@"\bcustomer[- ]centric\b", "gi"),
    Regex(@"\bvalue proposition\b", "gi"),
    Regex(@"\bcompetitive (advantage|landscape)\b", "gi"),
    Regex(@"\bmarket (share|penetration|trends?)\b", "gi"),
    Regex(@"\bROI\b", "gi")
  ]

  const MediumAggroPart2: seq<Regex> := [
    Regex(@"\bKPI\b", "gi"),
    Regex(@"\bSLA\b", "gi"),
    Regex(@"\bMVP\b", "gi"),
    Regex(@"\bPOC\b", "gi"),
    Regex(@"\bdeep dive\b", "gi"),
    Regex(@"\bdouble click\b", "gi"),
    Regex(@"\bdeliverables?\b", "gi"),
    Regex(@"\baction items?\b", "gi"),
    Regex(@"\bwheelhouse\b", "gi"),
    Regex(@"\bnimble\b", "gi"),
    Regex(@"\bempower(ment)?\b", "gi"),
    Regex(@"\bdriv(e|ing) innovation\b", "gi"),
    Regex(@"\bfostering\b", "gi"),
    Regex(@"\benhance\b", "gi"),
    Regex(@"\boptimize\b", "gi"),
    Regex(@"\bstreamline\b", "gi"),
    Regex(@"\bmaximize\b", "gi")
  ]

  /** The content script's Tier 2 list (corporate buzzwords, 2 points per match); the checker's Tier 2 list starts with it. */
  const MediumAggro: seq<Regex> :=
    MediumAggroPart0 + MediumAggroPart1 + MediumAggroPart2

  const HighAggroPart0: seq<Regex> := [
    Regex(@"\bfree\b", "gi"),
    Regex(@"\bguaranteed\b", "gi"),
    Regex(@"\bamazing\b", "gi"),
    Regex(@"\bincredible\b", "gi"),
    Regex(@"\bunbelievable\b", "gi"),
    Regex(@"\bmind[- ]blowing\b", "gi"),
    Regex(@"\brevolutionary\b", "gi"),
    Regex(@"\bmiracle\b", "gi"),
    Regex(@"\bbest[- ]in[- ]class\b", "gi"),
    Regex(@"\btop[- ]of[- ]the[- ]line\b", "gi"),
    Regex(@"\bstate[- ]of[- ]the[- ]art\b", "gi"),
    Regex(@"\bclick here\b", "gi"),
    Regex(@"\bbuy now\b", "gi"),
    Regex(@"\bact (now|immediately)\b", "gi"),
    Regex(@"\blimited time offer\b", "gi"),
    Regex(@"\bdon'?t wait\b", "gi"),
    Regex(@"\bonce in a lifetime\b", "gi"),
    Regex(@"\bno strings attached\b", "gi"),
    Regex(@"\brisk[- ]free\b", "gi"),
    Regex(@"\bdouble your income\b", "gi"),
    Regex(@"\bmake money\b", "gi"),
    Regex(@"\bearn money\b", "gi"),
    Regex(@"\bfast cash\b", "gi"),
    Regex(@"\bproven results\b", "gi"),
    Regex(@"\bspecial promotion\b", "gi")
  ]

  const HighAggroPart1: seq<Regex> := [
    Regex(@"\bsave big\b", "gi"),
    Regex(@"\blowest price\b", "gi"),
    Regex(@"\bbest (deal|price|offer)\b", "gi"),
    Regex(@"\bno cost\b", "gi"),
    Regex(@"\bfree consultation\b", "gi"),
    Regex(@"\bexpertly curated\b", "gi"),
    Regex(@"\bmust[- ]have\b", "gi"),
    Regex(@"\bnext[- ]level\b", "gi"),
    Regex(@"\braise(d)? the bar\b", "gi"),
    Regex(@"\bstand out from the crowd\b", "gi"),
    Regex(@"\bspread like wildfire\b", "gi"),
    Regex(@"\btake .{5,30} (to the next level|by storm)\b", "gi"),
    Regex(@"\bthrow .{5,30} against the wall\b", "gi"),
    Regex(@"\btip of the iceberg\b", "gi"),
    Regex(@"\bunder the radar\b", "gi"),
    Regex(@"\bcontent is king\b", "gi"),
    Regex(@"\bSEO is dead\b", "gi"),
    Regex(@"\bkiller (content|anything)\b", "gi"),
    Regex(@"\bhit the ground running\b", "gi"),
    Regex(@"\bfrom the (beginning of time|dawn of man)\b", "gi"),
    Regex(@"\bthe fact of the matter is\b", "gi"),
    Regex(@"\bthe long and short of it\b", "gi"),
    Regex(@"\bwhen all is said and done\b", "gi"),
    Regex(@"\bin a nutshell\b", "gi"),
    Regex(@"\bbasically\b", "gi")
  ]

  const HighAggroPart2: seq<Regex> := [
    Regex(@"\bessentially\b", "gi"),
    Regex(@"\bactually\b", "gi")
  ]

  /** The content script's Tier 3 list (marketing language, 1 point per match); the checker's Tier 3 list starts with it. */
  const HighAggro: seq<Regex> :=
    HighAggroPart0 + HighAggroPart1 + HighAggroPart2

  // ---------------------------------------------------------------------
  // The checker (src/checker.js)
  // ---------------------------------------------------------------------

  const CheckerTier1ExtraPart0: seq<Regex> := [
    Regex(@"\blandscape is (constantly|rapidly|continuously) (changing|evolving|shifting)\b", "gi"),
    Regex(@"\bever[- ]changing (world|landscape|environment)\b", "gi"),
    Regex(@"\bfast[- ]paced (world|environment|landscape)\b", "gi"),
    Regex(@"\bcrucial (to understand|to note|to recognize|that)\b", "gi"),
    Regex(@"\bvital (to understand|to note|to recognize|that)\b", "gi"),
    Regex(@"\bimportant to (understand|note|recognize|remember) that\b", "gi"),
    Regex(@"\bworth noting that\b", "gi"),
    Regex(@"\bit'?s worth mentioning\b", "gi"),
    Regex(@"\bone (must|should) (consider|understand|recognize)\b", "gi"),
    Regex(@"\bproven track record\b", "gi"),
    Regex(@"\blong[- ]standing (tradition|practice|history)\b", "gi"),
    Regex(@"\btime[- ]tested\b", "gi"),
    Regex(@"\btried and (true|tested)\b", "gi"),
    Regex(@"\bstand(s)? the test of time\b", "gi"),
    Regex(@"\bexciting times ahead\b", "gi"),
    Regex(@"\bbright future ahead\b", "gi"),
    Regex(@"\bpromising future\b", "gi"),
    Regex(@"\blooking ahead\b", "gi"),
    Regex(@"\bas we look (to the future|forward|ahead)\b", "gi"),
    Regex(@"\bshape the future of\b", "gi"),
    Regex(@"\bfuture of .{5,30} (is|looks|appears)\b", "gi"),
    Regex(@"\bpoised to (become|transform|revolutionize)\b", "gi"),
    Regex(@"\bset to (become|transform|revolutionize)\b", "gi"),
    Regex(@"\bon the (brink|cusp|verge) of\b", "gi"),
    Regex(@"\bheralds? a new (era|age|chapter)\b", "gi")
  ]

  const CheckerTier1ExtraPart1: seq<Regex> := [
    Regex(@"\buses?her(s|ing)? in a new (era|age|chapter)\b", "gi"),
    Regex(@"\bmarks? a (turning|pivotal) point\b", "gi"),
    Regex(@"\bwatershed moment\b", "gi"),
    Regex(@"\binflection point\b", "gi"),
    Regex(@"\btipping point\b", "gi"),
    Regex(@"\bperfect storm of\b", "gi"),
    Regex(@"\bconvergence of\b", "gi"),
    Regex(@"\bintersection of\b", "gi"),
    Regex(@"\bat the (crossroads|forefront|vanguard) of\b", "gi"),
    Regex(@"\bspearhead(ing)? (the|a)\b", "gi"),
    Regex(@"\bchampion(ing)? (the|a)\b", "gi"),
    Regex(@"\bpioneer(ing)? (the|a|new)\b", "gi"),
    Regex(@"\btrailblaz(er|ing)\b", "gi"),
    Regex(@"\bindustry[- ]leading\b", "gi"),
    Regex(@"\bmarket[- ]leading\b", "gi"),
    Regex(@"\bworld[- ]class\b", "gi"),
    Regex(@"\bbest[- ]of[- ]breed\b", "gi"),
    Regex(@"\bcutting[- ]edge (technology|solution|approach|innovation)\b", "gi"),
    Regex(@"\bbleeding[- ]edge\b", "gi"),
    Regex(@"\bstate[- ]of[- ]the[- ]art (technology|solution|system)\b", "gi"),
    Regex(@"\bnext[- ]generation (technology|solution|platform)\b", "gi"),
    Regex(@"\bfuture[- ]proof(ing)?\b", "gi"),
    Regex(@"\bforward[- ]thinking\b", "gi"),
    Regex(@"\bvisionary (approach|leadership|thinking)\b", "gi"),
    Regex(@"\bmission[- ]critical\b", "gi")
  ]

  const CheckerTier1ExtraPart2: seq<Regex> := [
    Regex(@"\bbusiness[- ]critical\b", "gi"),
    Regex(@"\bstrategic (imperative|importance|priority)\b", "gi"),
    Regex(@"\bkey (driver|enabler|differentiator)\b", "gi"),
    Regex(@"\bfundamental(ly)? (different|transform)\b", "gi"),
    Regex(@"\bradical(ly)? (different|transform|change)\b", "gi"),
    Regex(@"\bdramatic(ally)? (different|improve|increase)\b", "gi"),
    Regex(@"\bsignificant(ly)? (improve|enhance|boost)\b", "gi"),
    Regex(@"\bmassive(ly)? (improve|scale|grow)\b", "gi"),
    Regex(@"\bexponential (growth|increase|improvement)\b", "gi"),
    Regex(@"\bunique (opportunity|position|advantage)\b", "gi"),
    Regex(@"\bdistinctive (feature|advantage|capability)\b", "gi"),
    Regex(@"\bcompelling (reason|case|argument)\b", "gi"),
    Regex(@"\bconvincing (evidence|case|argument)\b", "gi"),
    Regex(@"\boverwhelmingly (positive|successful|clear)\b", "gi"),
    Regex(@"\bundeniab(ly|le)\b", "gi"),
    Regex(@"\birrefutabl(y|e)\b", "gi"),
    Regex(@"\bincontrovertib(ly|le)\b", "gi"),
    Regex(@"\bunequivocal(ly)?\b", "gi"),
    Regex(@"\bdefinitively\b", "gi"),
    Regex(@"\bcategorically\b", "gi"),
    Regex(@"\bundoubtedly\b", "gi"),
    Regex(@"\bwithout (a )?doubt\b", "gi"),
    Regex(@"\bbeyond (a|any) (shadow of a )?doubt\b", "gi"),
    Regex(@"\bneedles to say\b", "gi"),
    Regex(@"\bit goes without saying\b", "gi")
  ]

  const CheckerTier1ExtraPart3: seq<Regex> := [
    Regex(@"\bsuffice (it )?to say\b", "gi"),
    Regex(@"\blong story short\b", "gi"),
    Regex(@"\bto make a long story short\b", "gi"),
    Regex(@"\bcutting to the chase\b", "gi"),
    Regex(@"\bbottom line is\b", "gi"),
    Regex(@"\bnet[- ]net\b", "gi"),
    Regex(@"\ball things considered\b", "gi"),
    Regex(@"\btaking everything into (account|consideration)\b", "gi"),
    Regex(@"\bat this (point in time|juncture)\b", "gi"),
    Regex(@"\bcurrent(ly)? in the (process|midst) of\b", "gi"),
    Regex(@"\bgaining (traction|momentum)\b", "gi"),
    Regex(@"\bpicking up (steam|speed|momentum)\b", "gi"),
    Regex(@"\bon an upward trajectory\b", "gi"),
    Regex(@"\bupward trend\b", "gi"),
    Regex(@"\bskyrocket(ing)?\b", "gi"),
    Regex(@"\bsurg(e|ing)\b", "gi"),
    Regex(@"\bexplosive growth\b", "gi"),
    Regex(@"\bmeteoric rise\b", "gi"),
    Regex(@"\bunprecedented growth\b", "gi"),
    Regex(@"\bunparalleled success\b", "gi"),
    Regex(@"\brecord[- ]breaking\b", "gi"),
    Regex(@"\ball[- ]time (high|low|record)\b", "gi"),
    Regex(@"\bbar[- ]setting\b", "gi"),
    Regex(@"\bbenchmark[- ]setting\b", "gi"),
    Regex(@"\bindustry[- ]defining\b", "gi")
  ]

  const CheckerTier1ExtraPart4: seq<Regex> := [
    Regex(@"\bmarket[- ]defining\b", "gi"),
    Regex(@"\bcategory[- ]defining\b", "gi")
  ]

  /** Tier 1 entries only the checker has. */
  const CheckerTier1Extra: seq<Regex> :=
    CheckerTier1ExtraPart0 + CheckerTier1ExtraPart1 + CheckerTier1ExtraPart2 + CheckerTier1ExtraPart3 + CheckerTier1ExtraPart4

  /** The checker's Tier 1 list: 3 points per match. */
  const CheckerTier1: seq<Regex> := LowAggro + CheckerTier1Extra

  const CheckerTier2ExtraPart0: seq<Regex> := [
    Regex(@"\balignment\b", "gi"),
    Regex(@"\balign(ing|ed) (with|to|on)\b", "gi"),
    Regex(@"\bget (on|aligned on) the same page\b", "gi"),
    Regex(@"\bsing from the same (hymn|song) (sheet|book)\b", "gi"),
    Regex(@"\bget everyone on board\b", "gi"),
    Regex(@"\bwin[- ]win\b", "gi"),
    Regex(@"\bgain[- ]gain\b", "gi"),
    Regex(@"\bmutually beneficial\b", "gi"),
    Regex(@"\bpartnerships?\b", "gi"),
    Regex(@"\bcollaborate\b", "gi"),
    Regex(@"\bcross[- ]functional\b", "gi"),
    Regex(@"\bcross[- ]pollination\b", "gi"),
    Regex(@"\bhorizontal integration\b", "gi"),
    Regex(@"\bvertical integration\b", "gi"),
    Regex(@"\bend[- ]to[- ]end (solution|platform)\b", "gi"),
    Regex(@"\bone[- ]stop[- ]shop\b", "gi"),
    Regex(@"\bturnkey (solution|platform)\b", "gi"),
    Regex(@"\bplug[- ]and[- ]play\b", "gi"),
    Regex(@"\bout[- ]of[- ]the[- ]box\b", "gi"),
    Regex(@"\bbaked[- ]in\b", "gi"),
    Regex(@"\bnative(ly)? (support|integrate)\b", "gi"),
    Regex(@"\bfirst[- ]class (support|citizen)\b", "gi"),
    Regex(@"\bfull[- ]stack\b", "gi"),
    Regex(@"\bhands[- ]on deck\b", "gi"),
    Regex(@"\brolling up (our|my) sleeves\b", "gi")
  ]

  const CheckerTier2ExtraPart1: seq<Regex> := [
    Regex(@"\brolls[- ]royce (of|standard)\b", "gi"),
    Regex(@"\bgold standard\b", "gi"),
    Regex(@"\bbest[- ]in[- ]class\b", "gi"),
    Regex(@"\bworld[- ]beating\b", "gi"),
    Regex(@"\btop[- ]tier\b", "gi"),
    Regex(@"\bpremium (quality|tier|offering)\b", "gi"),
    Regex(@"\benterprise[- ]grade\b", "gi"),
    Regex(@"\bproduction[- ]ready\b", "gi"),
    Regex(@"\bbattle[- ]tested\b", "gi"),
    Regex(@"\bfield[- ]tested\b", "gi"),
    Regex(@"\bproven (solution|platform|methodology)\b", "gi"),
    Regex(@"\bvirtual(ly)? seamless\b", "gi"),
    Regex(@"\bfriction(less)?\b", "gi"),
    Regex(@"\bpainless\b", "gi"),
    Regex(@"\beffortless(ly)?\b", "gi"),
    Regex(@"\btransparent(ly)?\b", "gi"),
    Regex(@"\bvisibility\b", "gi"),
    Regex(@"\bobservability\b", "gi"),
    Regex(@"\btelemetry\b", "gi"),
    Regex(@"\binstrument(ation|ed)?\b", "gi"),
    Regex(@"\bmetrics[- ]driven\b", "gi"),
    Regex(@"\bmeasurable (impact|results|outcomes)\b", "gi"),
    Regex(@"\bquantifiable (impact|results|benefits)\b", "gi"),
    Regex(@"\bactionable (insights?|data|intelligence)\b", "gi"),
    Regex(@"\bdata[- ]backed\b", "gi")
  ]

  const CheckerTier2ExtraPart2: seq<Regex> := [
    Regex(@"\bevidence[- ]based\b", "gi"),
    Regex(@"\bscientific (approach|method)\b", "gi"),
    Regex(@"\bfirst principles\b", "gi"),
    Regex(@"\bfrom the ground up\b", "gi"),
    Regex(@"\bpurpose[- ]built\b", "gi"),
    Regex(@"\btailor[- ]made\b", "gi"),
    Regex(@"\bcustomized (solution|approach|strategy)\b", "gi"),
    Regex(@"\bbespoke\b", "gi"),
    Regex(@"\bwhite[- ]glove (service|treatment)\b", "gi"),
    Regex(@"\bconcierge (service|level|tier)\b", "gi"),
    Regex(@"\bpremium (service|support|experience)\b", "gi"),
    Regex(@"\b24\/7\b", "gi"),
    Regex(@"\baround[- ]the[- ]clock\b", "gi"),
    Regex(@"\balways[- ]on\b", "gi"),
    Regex(@"\b99\.9+%? (uptime|availability)\b", "gi"),
    Regex(@"\bhigh[- ]availability\b", "gi"),
    Regex(@"\bmission[- ]critical\b", "gi"),
    Regex(@"\bfault[- ]tolerant\b", "gi"),
    Regex(@"\bself[- ]healing\b", "gi"),
    Regex(@"\bauto[- ]scaling\b", "gi"),
    Regex(@"\belastic(ally)?\b", "gi"),
    Regex(@"\bon[- ]demand\b", "gi"),
    Regex(@"\bpay[- ]as[- ]you[- ]go\b", "gi"),
    Regex(@"\bsubscription[- ]based\b", "gi"),
    Regex(@"\bSaaS\b", "gi")
  ]

  const CheckerTier2ExtraPart3: seq<Regex> := [
    Regex(@"\bPaaS\b", "gi"),
    Regex(@"\bIaaS\b", "gi"),
    Regex(@"\bXaaS\b", "gi"),
    Regex(@"\bAs[- ]a[- ]Service\b", "gi"),
    Regex(@"\bAPI[- ]first\b", "gi"),
    Regex(@"\bmobile[- ]first\b", "gi"),
    Regex(@"\bcloud[- ]first\b", "gi"),
    Regex(@"\bcloud[- ]native\b", "gi"),
    Regex(@"\bcontainerized\b", "gi"),
    Regex(@"\bmicroservices\b", "gi"),
    Regex(@"\bserverless\b", "gi"),
    Regex(@"\bevent[- ]driven\b", "gi"),
    Regex(@"\basync(hronous)?\b", "gi"),
    Regex(@"\breal[- ]time\b", "gi"),
    Regex(@"\binstant(ly)?\b", "gi"),
    Regex(@"\blightning[- ]fast\b", "gi"),
    Regex(@"\bblazing(ly)?[- ]fast\b", "gi"),
    Regex(@"\bmillisecond (response|latency)\b", "gi"),
    Regex(@"\blow[- ]latency\b", "gi"),
    Regex(@"\bhigh[- ]performance\b", "gi"),
    Regex(@"\bperformant\b", "gi"),
    Regex(@"\bscalable\b", "gi"),
    Regex(@"\bmodular\b", "gi"),
    Regex(@"\bextensible\b", "gi"),
    Regex(@"\bflexible\b", "gi")
  ]

  const CheckerTier2ExtraPart4: seq<Regex> := [
    Regex(@"\badaptable\b", "gi"),
    Regex(@"\bversatile\b", "gi"),
    Regex(@"\bno[- ]code\b", "gi"),
    Regex(@"\blow[- ]code\b", "gi"),
    Regex(@"\bdrag[- ]and[- ]drop\b", "gi"),
    Regex(@"\bpoint[- ]and[- ]click\b", "gi"),
    Regex(@"\buser[- ]friendly\b", "gi"),
    Regex(@"\bintuitive\b", "gi"),
    Regex(@"\bseamless (experience|integration|workflow)\b", "gi")
  ]

  /** Tier 2 entries only the checker has. */
  const CheckerTier2Extra: seq<Regex> :=
    CheckerTier2ExtraPart0 + CheckerTier2ExtraPart1 + CheckerTier2ExtraPart2 + CheckerTier2ExtraPart3 + CheckerTier2ExtraPart4

  /** The checker's Tier 2 list: 2 points per match. */
  const CheckerTier2: seq<Regex> := MediumAggro + CheckerTier2Extra

  const CheckerTier3ExtraPart0: seq<Regex> := [
    Regex(@"\bawesome\b", "gi"),
    Regex(@"\bfantastic\b", "gi"),
    Regex(@"\bspectacular\b", "gi"),
    Regex(@"\bphenomenal\b", "gi"),
    Regex(@"\boutstanding\b", "gi"),
    Regex(@"\bexceptional\b", "gi"),
    Regex(@"\bextraordinary\b", "gi"),
    Regex(@"\bremarkable\b", "gi"),
    Regex(@"\bstunning\b", "gi"),
    Regex(@"\bwonderful\b", "gi"),
    Regex(@"\bsuperb\b", "gi"),
    Regex(@"\bexquisite\b", "gi"),
    Regex(@"\bmagnificent\b", "gi"),
    Regex(@"\bglorious\b", "gi"),
    Regex(@"\bsplendid\b", "gi"),
    Regex(@"\bterrific\b", "gi"),
    Regex(@"\bmarvelous\b", "gi"),
    Regex(@"\bsensational\b", "gi"),
    Regex(@"\bimpressive\b", "gi"),
    Regex(@"\bawe[- ]inspiring\b", "gi"),
    Regex(@"\bbreathtaking\b", "gi"),
    Regex(@"\blife[- ]changing\b", "gi"),
    Regex(@"\bgame[- ]changing\b", "gi"),
    Regex(@"\bworld[- ]changing\b", "gi"),
    Regex(@"\binsane(ly)?\b", "gi")
  ]

  const CheckerTier3ExtraPart1: seq<Regex> := [
    Regex(@"\bcrazy (good|fast|powerful)\b", "gi"),
    Regex(@"\bsick (deals?|features?)\b", "gi"),
    Regex(@"\bepic\b", "gi"),
    Regex(@"\blegendary\b", "gi"),
    Regex(@"\bmythical\b", "gi"),
    Regex(@"\bunicorn\b", "gi"),
    Regex(@"\b10x\b", "gi"),
    Regex(@"\b100x\b", "gi"),
    Regex(@"\bmillion dollar\b", "gi"),
    Regex(@"\bbillion dollar\b", "gi"),
    Regex(@"\bfortune 500\b", "gi"),
    Regex(@"\bwall street\b", "gi"),
    Regex(@"\bsilicon valley\b", "gi"),
    Regex(@"\bsecret(s)? (to|of)\b", "gi"),
    Regex(@"\bhidden (secrets?|gems?|treasures?)\b", "gi"),
    Regex(@"\binsider (secrets?|tips?|knowledge)\b", "gi"),
    Regex(@"\bexclusive (access|offer|deal|content)\b", "gi"),
    Regex(@"\bmembers[- ]only\b", "gi"),
    Regex(@"\bVIP (access|membership|treatment)\b", "gi"),
    Regex(@"\binvite[- ]only\b", "gi"),
    Regex(@"\belite (group|club|members)\b", "gi"),
    Regex(@"\binner circle\b", "gi"),
    Regex(@"\btop 1%\b", "gi"),
    Regex(@"\bhigh[- ]earners?\b", "gi"),
    Regex(@"\bsuper[- ]users?\b", "gi")
  ]

  const CheckerTier3ExtraPart2: seq<Regex> := [
    Regex(@"\bpower[- ]users?\b", "gi"),
    Regex(@"\bearly (adopters?|access|bird)\b", "gi"),
    Regex(@"\bfirst movers?\b", "gi"),
    Regex(@"\bground floor\b", "gi"),
    Regex(@"\bget in (now|early|first)\b", "gi"),
    Regex(@"\bdon'?t miss out\b", "gi"),
    Regex(@"\bFOMO\b", "gi"),
    Regex(@"\bfear of missing out\b", "gi"),
    Regex(@"\bwhile (supplies|stocks?) last\b", "gi"),
    Regex(@"\bonly \d+ (left|remaining|available)\b", "gi"),
    Regex(@"\balmost (gone|sold out)\b", "gi"),
    Regex(@"\bselling (fast|quickly)\b", "gi"),
    Regex(@"\bhurry\b", "gi"),
    Regex(@"\bfast[- ]track\b", "gi"),
    Regex(@"\bshortcut(s)?\b", "gi"),
    Regex(@"\bcheat[- ]sheet\b", "gi"),
    Regex(@"\bhack(s)?\b", "gi"),
    Regex(@"\btrick(s)?\b", "gi"),
    Regex(@"\btip(s)? and trick(s)?\b", "gi"),
    Regex(@"\bpro[- ]tip(s)?\b", "gi"),
    Regex(@"\blife[- ]hack(s)?\b", "gi"),
    Regex(@"\bgrowth hack(s|ing)?\b", "gi"),
    Regex(@"\bguru\b", "gi"),
    Regex(@"\bexpert(s)? (reveal|share|teach)\b", "gi"),
    Regex(@"\blearn (from|like) the (pros|experts|best)\b", "gi")
  ]

  const CheckerTier3ExtraPart3: seq<Regex> := [
    Regex(@"\bmaster[- ]class\b", "gi"),
    Regex(@"\bblueprint\b", "gi"),
    Regex(@"\bframework\b", "gi"),
    Regex(@"\bformula (for|to)\b", "gi"),
    Regex(@"\bstep[- ]by[- ]step (guide|formula|system)\b", "gi"),
    Regex(@"\bproven (system|formula|method|strategy)\b", "gi"),
    Regex(@"\bfoolproof\b", "gi"),
    Regex(@"\bno[- ]brainer\b", "gi"),
    Regex(@"\bsimple (as|trick|hack|way)\b", "gi"),
    Regex(@"\beasy (as|peasy|way|trick)\b", "gi"),
    Regex(@"\bquick (and easy|fix|win|tip)\b", "gi"),
    Regex(@"\bin (just )?\d+ (minutes?|hours?|days?|weeks?)\b", "gi"),
    Regex(@"\bovernight (success|results)\b", "gi"),
    Regex(@"\binstant (results|success|gratification)\b", "gi"),
    Regex(@"\bimmediate (results|impact|effect)\b", "gi"),
    Regex(@"\bwithin (minutes|hours|days)\b", "gi"),
    Regex(@"\bas soon as (today|tomorrow|tonight)\b", "gi"),
    Regex(@"\bright (now|away|here)\b", "gi"),
    Regex(@"\bdon'?t (delay|hesitate|think twice)\b", "gi"),
    Regex(@"\btake action (now|today|immediately)\b", "gi"),
    Regex(@"\bget started (now|today|free)\b", "gi"),
    Regex(@"\btry (it|now|today|free)\b", "gi"),
    Regex(@"\bno (credit card|payment|commitment) (required|needed)\b", "gi"),
    Regex(@"\bcancel anytime\b", "gi"),
    Regex(@"\b30[- ]day (trial|guarantee|money[- ]back)\b", "gi")
  ]

  const CheckerTier3ExtraPart4: seq<Regex> := [
    Regex(@"\bmoney[- ]back guarantee\b", "gi"),
    Regex(@"\b100% (free|guaranteed|satisfaction)\b", "gi"),
    Regex(@"\babsolutely free\b", "gi"),
    Regex(@"\bcompletely free\b", "gi"),
    Regex(@"\btotally free\b", "gi"),
    Regex(@"\bno (catch|gimmick|trick)\b", "gi"),
    Regex(@"\byou (won'?t|don'?t want to) miss (this|out)\b", "gi"),
    Regex(@"\bsign up (now|today|free)\b", "gi"),
    Regex(@"\bjoin (now|today|free|thousands|millions)\b", "gi"),
    Regex(@"\b(thousands|millions|billions) of (users|customers|people)\b", "gi"),
    Regex(@"\btrusted by (thousands|millions|Fortune 500)\b", "gi"),
    Regex(@"\bas seen on (TV|CNN|Forbes|TechCrunch)\b", "gi"),
    Regex(@"\bfeatured in\b", "gi"),
    Regex(@"\baward[- ]winning\b", "gi"),
    Regex(@"\bindustry[- ]leading\b", "gi"),
    Regex(@"\bmarket[- ]leading\b", "gi"),
    Regex(@"\b#1 (rated|ranked|choice)\b", "gi"),
    Regex(@"\btop[- ]rated\b", "gi"),
    Regex(@"\bhighest[- ]rated\b", "gi"),
    Regex(@"\b\d+[- ]star (rating|reviews?)\b", "gi"),
    Regex(@"\b\d+\+? ?(million|billion|thousand)?\+? (users?|customers?|downloads?)\b", "gi"),
    Regex(@"\btransform your (life|business|career|finances)\b", "gi"),
    Regex(@"\bchange your life\b", "gi"),
    Regex(@"\bachieve your (dreams|goals)\b", "gi"),
    Regex(@"\bunlock your (potential|success)\b", "gi")
  ]

  const CheckerTier3ExtraPart5: seq<Regex> := [
    Regex(@"\bdiscover (how|the|your)\b", "gi"),
    Regex(@"\blearn (how|the secret|everything)\b", "gi"),
    Regex(@"\bfind out (how|why|what)\b", "gi"),
    Regex(@"\bsee (how|why|what|the)\b", "gi"),
    Regex(@"\bwatch (how|this|now)\b", "gi"),
    Regex(@"\blook (at|what|how)\b", "gi"),
    Regex(@"\bread (this|on|more)\b", "gi"),
    Regex(@"\bmore (here|info|information|details)\b", "gi"),
    Regex(@"\blearn more\b", "gi"),
    Regex(@"\bget (more|yours|started|access)\b", "gi"),
    Regex(@"\bfind your\b", "gi"),
    Regex(@"\bstart your\b", "gi"),
    Regex(@"\bbegin your\b", "gi"),
    Regex(@"\bkickstart your\b", "gi"),
    Regex(@"\bjumpstart your\b", "gi"),
    Regex(@"\bboost your\b", "gi"),
    Regex(@"\bgrow your\b", "gi"),
    Regex(@"\bscale your\b", "gi"),
    Regex(@"\b(double|triple|10x) your\b", "gi"),
    Regex(@"\bincrease your .{5,30} by \d+%\b", "gi")
  ]

  /** Tier 3 entries only the checker has. */
  const CheckerTier3Extra: seq<Regex> :=
    CheckerTier3ExtraPart0 + CheckerTier3ExtraPart1 + CheckerTier3ExtraPart2 + CheckerTier3ExtraPart3 + CheckerTier3ExtraPart4 + CheckerTier3ExtraPart5

  /** The checker's Tier 3 list: 1 point per match. */
  const CheckerTier3: seq<Regex> := HighAggro + CheckerTier3Extra

  const CheckerEmojiPart0: seq<Regex> := [
    Regex(@"[\u{1F300}-\u{1F9FF}][\s]*Revolutioniz(e|ing)", "giu"),
    Regex(@"[\u{1F300}-\u{1F9FF}][\s]*Transform(ing|ative|ation)", "giu"),
    Regex(@"[\u{1F300}-\u{1F9FF}][\s]*Innovati(ng|on|ve)", "giu"),
    Regex(@"[\u{1F300}-\u{1F9FF}][\s]*Disrupt(ing|ive|ion)", "giu"),
    Regex(@"[\u{1F300}-\u{1F9FF}][\s]*Game[- ]changer", "giu"),
    Regex(@"[\u{1F300}-\u{1F9FF}][\s]*Unlock(ing)? (the|your)", "giu"),
    Regex(@"[\u{1F300}-\u{1F9FF}][\s]*Navigating the", "giu"),
    Regex(@"[\u{1F300}-\u{1F9FF}][\s]*Building (the future|tomorrow)", "giu"),
    Regex(@"[\u{1F300}-\u{1F9FF}][\s]*Leading the (way|charge)", "giu"),
    Regex(@"[\u{1F300}-\u{1F9FF}][\s]*Breaking (barriers|boundaries)", "giu"),
    Regex(@"[\u{1F300}-\u{1F9FF}][\s]*Exciting (news|announcement|times)", "giu"),
    Regex(@"[\u{1F300}-\u{1F9FF}][\s]*Proud to (announce|share|present)", "giu"),
    Regex(@"[\u{1F300}-\u{1F9FF}][\s]*Thrilled to", "giu"),
    Regex(@"[\u{1F300}-\u{1F9FF}][\s]*Honored to", "giu"),
    Regex(@"[\u{1F300}-\u{1F9FF}][\s]*Grateful (for|to)", "giu"),
    Regex(@"[\u{1F300}-\u{1F9FF}][\s]*Blessed to", "giu"),
    Regex(@"[\u{1F300}-\u{1F9FF}][\s]*Humbled (by|to)", "giu"),
    Regex(@"[\u{1F300}-\u{1F9FF}][\s]*(Big|Huge|Major) (news|announcement)", "giu"),
    Regex(@"[\u{1F300}-\u{1F9FF}][\s]*Level(ing)? up", "giu"),
    Regex(@"[\u{1F300}-\u{1F9FF}][\s]*Next level", "giu"),
    Regex(@"[\u{1F300}-\u{1F9FF}][\s]*Taking (it|things) to", "giu"),
    Regex(@"[\u{1F300}-\u{1F9FF}][\s]*Raising the bar", "giu"),
    Regex(@"[\u{1F300}-\u{1F9FF}][\s]*Pushing boundaries", "giu"),
    Regex(@"[\u{1F300}-\u{1F9FF}][\s]*Breaking (new )?ground", "giu"),
    Regex(@"[\u{1F300}-\u{1F9FF}][\s]*Making (waves|history|impact)", "giu")
  ]

  const CheckerEmojiPart1: seq<Regex> := [
    Regex(@"[\u{1F300}-\u{1F9FF}][\s]*Changing the game", "giu"),
    Regex(@"[\u{1F300}-\u{1F9FF}][\s]*Shaping the future", "giu"),
    Regex(@"[\u{1F300}-\u{1F9FF}][\s]*Driving (change|innovation|growth)", "giu"),
    Regex(@"[\u{1F300}-\u{1F9FF}][\s]*Empowering", "giu"),
    Regex(@"[\u{1F300}-\u{1F9FF}][\s]*Inspiring", "giu"),
    Regex(@"[\u{1F300}-\u{1F9FF}][\s]*Amplifying", "giu"),
    Regex(@"[\u{1F300}-\u{1F9FF}][\s]*Elevating", "giu"),
    Regex(@"[\u{1F300}-\u{1F9FF}][\s]*Scaling", "giu"),
    Regex(@"[\u{1F300}-\u{1F9FF}][\s]*Optimizing", "giu"),
    Regex(@"[\u{1F300}-\u{1F9FF}][\s]*Maximizing", "giu"),
    Regex(@"[\u{1F300}-\u{1F9FF}][\s]*Leveraging", "giu"),
    Regex(@"[\u{1F300}-\u{1F9FF}][\s]*Harnessing", "giu"),
    Regex(@"[\u{1F300}-\u{1F9FF}][\s]*Pioneering", "giu"),
    Regex(@"[\u{1F300}-\u{1F9FF}][\s]*Spearheading", "giu"),
    Regex(@"[\u{1F300}-\u{1F9FF}][\s]*Championing", "giu"),
    Regex(@"[\u{1F300}-\u{1F9FF}][\s]*Crushing (it|goals)", "giu"),
    Regex(@"[\u{1F300}-\u{1F9FF}][\s]*Killing it", "giu"),
    Regex(@"[\u{1F300}-\u{1F9FF}][\s]*Nailing it", "giu"),
    Regex(@"[\u{1F300}-\u{1F9FF}][\s]*Winning", "giu"),
    Regex(@"[\u{1F300}-\u{1F9FF}][\s]*Slaying", "giu"),
    Regex(@"[\u{1F300}-\u{1F9FF}][\s]*Dominating", "giu"),
    Regex(@"[\u{1F300}-\u{1F9FF}][\s]*Conquering", "giu"),
    Regex(@"[\u{1F300}-\u{1F9FF}][\s]*Launching", "giu"),
    Regex(@"[\u{1F300}-\u{1F9FF}][\s]*Unveiling", "giu"),
    Regex(@"[\u{1F300}-\u{1F9FF}][\s]*Introducing", "giu")
  ]

  const CheckerEmojiPart2: seq<Regex> := [
    Regex(@"[\u{1F300}-\u{1F9FF}][\s]*Announcing", "giu"),
    Regex(@"[\u{1F300}-\u{1F9FF}][\s]*Revealing", "giu"),
    Regex(@"[\u{1F300}-\u{1F9FF}][\s]*Dropping", "giu"),
    Regex(@"[\u{1F300}-\u{1F9FF}][\s]*Shipping", "giu"),
    Regex(@"[\u{1F300}-\u{1F9FF}][\s]*(New|Fresh) (chapter|journey|adventure)", "giu"),
    Regex(@"[\u{1F300}-\u{1F9FF}][\s]*Milestone (alert|achieved)", "giu"),
    Regex(@"[\u{1F300}-\u{1F9FF}][\s]*Achievement unlocked", "giu"),
    Regex(@"[\u{1F300}-\u{1F9FF}][\s]*Success story", "giu"),
    Regex(@"[\u{1F300}-\u{1F9FF}][\s]*Plot twist", "giu"),
    Regex(@"[\u{1F300}-\u{1F9FF}][\s]*Hot take", "giu"),
    Regex(@"[\u{1F300}-\u{1F9FF}][\s]*Pro tip", "giu"),
    Regex(@"[\u{1F300}-\u{1F9FF}][\s]*Life hack", "giu"),
    Regex(@"[\u{1F300}-\u{1F9FF}][\s]*Growth hack", "giu"),
    Regex(@"[\u{1F300}-\u{1F9FF}][\s]*Quick win", "giu"),
    Regex(@"[\u{1F300}-\u{1F9FF}][\s]*Game plan", "giu"),
    Regex(@"[\u{1F300}-\u{1F9FF}][\s]*Strategy", "giu"),
    Regex(@"[\u{1F300}-\u{1F9FF}][\s]*Framework", "giu"),
    Regex(@"[\u{1F300}-\u{1F9FF}][\s]*Blueprint", "giu"),
    Regex(@"[\u{1F300}-\u{1F9FF}][\s]*Roadmap", "giu"),
    Regex(@"[\u{1F300}-\u{1F9FF}][\s]*Masterclass", "giu"),
    Regex(@"[\u{1F300}-\u{1F9FF}][\s]*Deep dive", "giu"),
    Regex(@"[\u{1F300}-\u{1F9FF}][\s]*Behind the scenes", "giu"),
    Regex(@"[\u{1F300}-\u{1F9FF}][\s]*Sneak peek", "giu"),
    Regex(@"[\u{1F300}-\u{1F9FF}][\s]*Coming soon", "giu"),
    Regex(@"[\u{1F300}-\u{1F9FF}][\s]*Stay tuned", "giu")
  ]

  const CheckerEmojiPart3: seq<Regex> := [
    Regex(@"[\u{1F300}-\u{1F9FF}][\s]*Watch this space", "giu"),
    Regex(@"[\u{1F300}-\u{1F9FF}][\s]*More to come", "giu"),
    Regex(@"\n[\u{1F300}-\u{1F9FF}][\s]*", "gmu"),
    Regex(@"^[\u{1F300}-\u{1F9FF}][\s]*[A-Z]", "gmu"),
    Regex(@"[\u{1F300}-\u{1F9FF}][\s]*[\u{1F300}-\u{1F9FF}][\s]*[\u{1F300}-\u{1F9FF}]", "giu"),
    Regex(@"([\u{1F300}-\u{1F9FF}])\1{2,}", "giu"),
    Regex(@"[\u{1F300}-\u{1F9FF}]{4,}", "giu"),
    Regex(@"[\u{1F300}-\u{1F9FF}].{0,30}[\u{1F300}-\u{1F9FF}].{0,30}[\u{1F300}-\u{1F9FF}]", "giu"),
    Regex(@"[\u{1F300}-\u{1F9FF}].{0,50}[\u{1F300}-\u{1F9FF}]", "giu"),
    Regex(@"^[\u{1F300}-\u{1F9FF}][\s]*", "gmu"),
    Regex(@"\.[\s]*[\u{1F300}-\u{1F9FF}][\s]*", "gmu"),
    Regex(@"![\s]*[\u{1F300}-\u{1F9FF}][\s]*", "gmu"),
    Regex(@"[\u{1F300}-\u{1F9FF}][\s]*$", "gmu"),
    Regex(@"[\u{1F300}-\u{1F9FF}][\s]*\n", "gmu"),
    Regex(@"[\u{1F300}-\u{1F9FF}][\s]*.{3,30}[\s]*[\u{1F300}-\u{1F9FF}]", "giu"),
    Regex(@"👇.{0,30}(link|comment|thread|below)", "giu"),
    Regex(@"👆.{0,30}(above|check out)", "giu"),
    Regex(@"👉.{0,30}(click|read|check|see)", "giu"),
    Regex(@"🔥.{0,30}(hot|fire|lit|amazing)", "giu"),
    Regex(@"💡.{0,30}(idea|tip|insight)", "giu"),
    Regex(@"🚀.{0,30}(launch|grow|scale|rocket)", "giu"),
    Regex(@"💪.{0,30}(strong|power|team)", "giu"),
    Regex(@"🎯.{0,30}(target|goal|focus)", "giu"),
    Regex(@"⚡.{0,30}(fast|quick|instant)", "giu"),
    Regex(@"✨.{0,30}(magic|special|shine)", "giu")
  ]

  const CheckerEmojiPart4: seq<Regex> := [
    Regex(@"🌟.{0,30}(star|great|amazing)", "giu"),
    Regex(@"💰.{0,30}(money|revenue|profit)", "giu"),
    Regex(@"📈.{0,30}(growth|increase|up)", "giu"),
    Regex(@"🎉.{0,30}(celebrate|congrat|party)", "giu"),
    Regex(@"🎊.{0,30}(celebrate|milestone)", "giu"),
    Regex(@"🏆.{0,30}(win|award|champion)", "giu"),
    Regex(@"💯.{0,30}(percent|complete|perfect)", "giu"),
    Regex(@"🔑.{0,30}(key|secret|unlock)", "giu"),
    Regex(@"🎁.{0,30}(gift|bonus|free)", "giu"),
    Regex(@"⏰.{0,30}(time|now|urgent|hurry)", "giu"),
    Regex(@"🔔.{0,30}(alert|notification|reminder)", "giu"),
    Regex(@"📣.{0,30}(announce|news|update)", "giu"),
    Regex(@"📢.{0,30}(announce|shout|loud)", "giu"),
    Regex(@"💬.{0,30}(comment|discuss|talk)", "giu"),
    Regex(@"🤝.{0,30}(partner|collab|together)", "giu"),
    Regex(@"❤️.{0,30}(love|passion|care)", "giu"),
    Regex(@"🙏.{0,30}(thank|grateful|please)", "giu"),
    Regex(@"👏.{0,30}(applaud|congrat|bravo)", "giu"),
    Regex(@"🎓.{0,30}(learn|education|graduate)", "giu"),
    Regex(@"📚.{0,30}(learn|book|knowledge)", "giu"),
    Regex(@"🧠.{0,30}(brain|think|smart|intelligence)", "giu"),
    Regex(@"🌍.{0,30}(world|global|international)", "giu"),
    Regex(@"🌎.{0,30}(world|global|international)", "giu"),
    Regex(@"🌏.{0,30}(world|global|international)", "giu"),
    Regex(@"[\u{1F300}-\u{1F9FF}][\s]*[\u{1F300}-\u{1F9FF}][\s]*[\u{1F300}-\u{1F9FF}][\s]*[\u{1F300}-\u{1F9FF}][\s]*[\u{1F300}-\u{1F9FF}]", "giu")
  ]

  const CheckerEmojiPart5: seq<Regex> := [
    Regex(@"^[\u{1F300}-\u{1F9FF}].{20,200}[\u{1F300}-\u{1F9FF}]$", "gmu"),
    Regex(@"[\u{1F300}-\u{1F9FF}][\s]*(Click|Comment|Share|Like|Follow|Subscribe|Join|Sign up|Learn more|Read more|Get|Download|Try|Start)", "giu"),
    Regex(@"(Click|Comment|Share|Like|Follow|Subscribe|Join|Sign up|Learn more|Read more|Get|Download|Try|Start).{0,20}[\u{1F300}-\u{1F9FF}]", "giu"),
    Regex(@"#[a-zA-Z0-9]+[\u{1F300}-\u{1F9FF}]", "giu"),
    Regex(@"[\u{1F300}-\u{1F9FF}]#[a-zA-Z0-9]+", "giu"),
    Regex(@"[\u{1F300}-\u{1F9FF}][\s]*.{5,50}\?", "giu"),
    Regex(@".{5,50}\?[\s]*[\u{1F300}-\u{1F9FF}]", "giu"),
    Regex(@"[\u{1F300}-\u{1F9FF}][\s]*[A-Z]{4,}", "gmu"),
    Regex(@"[A-Z]{4,}[\s]*[\u{1F300}-\u{1F9FF}]", "gmu"),
    Regex(@"[\u{1F300}-\u{1F9FF}]", "giu")
  ]

  /** The checker's emoji list: 5 points per match. */
  const CheckerEmoji: seq<Regex> :=
    CheckerEmojiPart0 + CheckerEmojiPart1 + CheckerEmojiPart2 + CheckerEmojiPart3 + CheckerEmojiPart4 + CheckerEmojiPart5

  // ---------------------------------------------------------------------
  // Stop words, em dashes and emoji of the content script (src/content.js)
  // ---------------------------------------------------------------------

  const StopWordOpenersPart0: seq<Regex> := [
    Regex(@"^(I'm|I am) (so |very )?(excited|thrilled|proud|happy|delighted|pleased|honored|grateful|blessed) to (announce|share|reveal|tell you|introduce)", "gim"),
    Regex(@"^(Can't|Cannot) wait to (share|tell you|announce|reveal)", "gim"),
    Regex(@"^(Big|Exciting|Great|Amazing) news[!:]", "gim"),
    Regex(@"^Just launched", "gim"),
    Regex(@"^(Today|This week|This month) (I'm|I am|we're|we are) (announcing|launching|releasing|sharing|excited to)", "gim"),
    Regex(@"^Excited to (share|announce|reveal|tell you|introduce)", "gim"),
    Regex(@"^Thrilled to (share|announce|reveal|tell you|introduce)", "gim"),
    Regex(@"^Proud to (share|announce|reveal|tell you|introduce)", "gim"),
    Regex(@"^Happy to (share|announce|reveal|tell you|introduce)", "gim"),
    Regex(@"^Delighted to (share|announce|reveal|tell you|introduce)", "gim"),
    Regex(@"^Honored to (share|announce|reveal|tell you|introduce)", "gim"),
    Regex(@"^Grateful to (share|announce|reveal|tell you|introduce)", "gim"),
    Regex(@"^Blessed to (share|announce|reveal|tell you|introduce)", "gim"),
    Regex(@"^Guess what[!?]", "gim"),
    Regex(@"^You('re| are) not going to believe", "gim"),
    Regex(@"^(Check out|Take a look at|Don't miss) (this|what)", "gim"),
    Regex(@"^(Major|Huge) announcement[!:]", "gim"),
    Regex(@"^(Finally|At last)[,!]", "gim"),
    Regex(@"^(Hot|Breaking) (take|news)[!:]", "gim")
  ]

  /** Marketing openers at the start of a line: the content script's stop-word list (3 points per match), also part of the older checker's Tier 1. */
  const StopWordOpeners: seq<Regex> :=
    StopWordOpenersPart0

  /** Two em dashes 10 to 100 characters apart. */
  const EmDashSpan: Regex := Regex(@"—.{10,100}—", "g")

  /** A single em dash. */
  const LoneEmDash: Regex := Regex(@"—", "g")

  /** The content script's em-dash list: 3 points per match. */
  const EmDashPatterns: seq<Regex> := [EmDashSpan, LoneEmDash]

  const ContentEmojiPart0: seq<Regex> := [
    Regex(@"[\u{1F300}-\u{1F9FF}][\s]*Revolutioniz(e|ing)", "giu"),
    Regex(@"[\u{1F300}-\u{1F9FF}][\s]*Transform(ing|ative)", "giu"),
    Regex(@"[\u{1F300}-\u{1F9FF}][\s]*Innovati(ng|on|ve)", "giu"),
    Regex(@"[\u{1F300}-\u{1F9FF}][\s]*Disrupt(ing|ive)", "giu"),
    Regex(@"[\u{1F300}-\u{1F9FF}][\s]*Game[- ]changer", "giu"),
    Regex(@"[\u{1F300}-\u{1F9FF}][\s]*Unlock(ing)? the", "giu"),
    Regex(@"[\u{1F300}-\u{1F9FF}][\s]*Navigating the", "giu"),
    Regex(@"[\u{1F300}-\u{1F9FF}][\s]*Building the future", "giu"),
    Regex(@"[\u{1F300}-\u{1F9FF}][\s]*Leading the way", "giu"),
    Regex(@"[\u{1F300}-\u{1F9FF}][\s]*Breaking barriers", "giu"),
    Regex(@"[\u{1F300}-\u{1F9FF}][\s]*Exciting (news|announcement)", "giu"),
    Regex(@"[\u{1F300}-\u{1F9FF}][\s]*Proud to (announce|share)", "giu"),
    Regex(@"[\u{1F300}-\u{1F9FF}][\s]*Thrilled to", "giu"),
    Regex(@"[\u{1F300}-\u{1F9FF}].{0,30}[\u{1F300}-\u{1F9FF}].{0,30}[\u{1F300}-\u{1F9FF}]", "giu"),
    Regex(@"^[\u{1F300}-\u{1F9FF}][\s]*", "gmu"),
    Regex(@"\.[\s]*[\u{1F300}-\u{1F9FF}][\s]*", "gmu"),
    Regex(@"[\u{1F300}-\u{1F9FF}]", "giu")
  ]

  /** The content script's emoji list: 5 points per match. */
  const ContentEmoji: seq<Regex> :=
    ContentEmojiPart0

  // ---------------------------------------------------------------------
  // The older checker (checker.js)
  // ---------------------------------------------------------------------

  const LegacyTier1LeadPart0: seq<Regex> := [
    Regex(@"\bdelve into\b", "gi"),
    Regex(@"\bdelving into (the )?(intricacies|complexities)\b", "gi"),
    Regex(@"\bnavigat(e|ing) (the|this) (complex )?(landscape|realm|world)\b", "gi"),
    Regex(@"\bin (today's|the) (rapidly )?evolving (landscape|world|market|era)\b", "gi"),
    Regex(@"\bembark on (a|this|your) journey\b", "gi"),
    Regex(@"\btapestry of\b", "gi"),
    Regex(@"\brealm of possibilities\b", "gi"),
    Regex(@"\bultimately,? (the )?(choice|decision) is yours\b", "gi"),
    Regex(@"\bmultifaceted (nature|approach|aspect)\b", "gi"),
    Regex(@"\bholistic(ally)? (approach|perspective|view)\b", "gi"),
    Regex(@"\bseamlessly integrat(e|ing|ed)\b", "gi"),
    Regex(@"\bunlock (the potential|new possibilities|unprecedented)\b", "gi"),
    Regex(@"\bgame-?chang(er|ing)\b", "gi"),
    Regex(@"\bparadigm shift\b", "gi"),
    Regex(@"\bgroundbreaking\b", "gi"),
    Regex(@"\bunprecedented\b", "gi"),
    Regex(@"\brobust (solution|framework|system|approach)\b", "gi"),
    Regex(@"\bcomprehensive (guide|overview|analysis|approach)\b", "gi"),
    Regex(@"\btransformative (power|potential|impact|insights)\b", "gi"),
    Regex(@"\btreasure trove\b", "gi"),
    Regex(@"\buncharted waters\b", "gi"),
    Regex(@"\bdeep dive into\b", "gi"),
    Regex(@"\bshed(ding)? light on\b", "gi"),
    Regex(@"\bat the end of the day\b", "gi"),
    Regex(@"\bin conclusion\b", "gi")
  ]

  const LegacyTier1LeadPart1: seq<Regex> := [
    Regex(@"\bin summary\b", "gi"),
    Regex(@"\bmoving forward\b", "gi"),
    Regex(@"\bkey takeaways?\b", "gi"),
    Regex(@"\bSomething shifted\b", "gi"),
    Regex(@"\bEverything changed\b", "gi"),
    Regex(@"\bBut here's the thing\b", "gi")
  ]

  /** The older checker's Tier 1 entries before the em-dash pair. */
  const LegacyTier1Lead: seq<Regex> :=
    LegacyTier1LeadPart0 + LegacyTier1LeadPart1

  const LegacyTier1MiddlePart0: seq<Regex> := [
    Regex(@"\bbreakthrough(s)?\b", "gi"),
    Regex(@"\bgiant leap\b", "gi"),
    Regex(@"\bexciting (possibilities|advances|opportunities|future)\b", "gi"),
    Regex(@"\bdazzling (pace|speed|rate)\b", "gi"),
    Regex(@"\bthrilling time to be alive\b", "gi"),
    Regex(@"\badvanced .{5,30} (technology|system|solution|method)\b", "gi"),
    Regex(@"\bstunning (results|advances|breakthroughs|discoveries)\b", "gi"),
    Regex(@"\breal[- ]world (impact|advances|applications|use)\b", "gi"),
    Regex(@"\bpositioning .{5,30} as game[- ]changer", "gi"),
    Regex(@"\bpace is accelerat(ing|ed)\b", "gi"),
    Regex(@"\bcould soon become\b", "gi"),
    Regex(@"\bopens .{5,30} possibilities\b", "gi"),
    Regex(@"\breignites? debates? about\b", "gi"),
    Regex(@"\bneed for new (regulations|laws|rules|policies)\b", "gi"),
    Regex(@"\brewriting (history|the books)\b", "gi"),
    Regex(@"\bprompting new questions about\b", "gi"),
    Regex(@"\bit'?s clear that\b", "gi"),
    Regex(@"\btruly (is|are) a .{5,30} time\b", "gi"),
    Regex(@"\bwhether it'?s .{10,50} or .{10,50}, it\b", "gi"),
    Regex(@"\bfrom .{5,30} to .{5,30}, (it|this|these)\b", "gi"),
    Regex(@"\bIntroducing .{5,30}, the (first|next|future)\b", "gi"),
    Regex(@"\bImagine .{10,50} — that'?s\b", "gi"),
    Regex(@"\bFor (decades|years), .{10,50} seemed like\b", "gi"),
    Regex(@"\bin 20\d{2}, it'?s\b", "gi"),
    Regex(@"\bNot all .{5,30} discoveries are\b", "gi")
  ]

  const LegacyTier1MiddlePart1: seq<Regex> := [
    Regex(@"\bscience fiction .{5,30} but in 20\d{2}\b", "gi")
  ]

  /** The older checker's Tier 1 entries between the em-dash pair and the stop-word openers. */
  const LegacyTier1Middle: seq<Regex> :=
    LegacyTier1MiddlePart0 + LegacyTier1MiddlePart1

  /** The older checker's Tier 1 list: besides AI phrases it holds both
      em-dash patterns and the stop-word openers, all at 3 points per match. */
  const LegacyTier1: seq<Regex> :=
    LegacyTier1Lead + [EmDashSpan] + LegacyTier1Middle + StopWordOpeners + [LoneEmDash]

  const LegacyTier2Part0: seq<Regex> := [
    Regex(@"\bsynergy\b", "gi"),
    Regex(@"\bleverage\b", "gi"),
    Regex(@"\bcircle back\b", "gi"),
    Regex(@"\blow[- ]hanging fruit\b", "gi"),
    Regex(@"\bmove the needle\b", "gi"),
    Regex(@"\bthink outside the box\b", "gi"),
    Regex(@"\btouch base\b", "gi"),
    Regex(@"\btake (it|this) offline\b", "gi"),
    Regex(@"\bpivot\b", "gi"),
    Regex(@"\bdisrupt(ive)?\b", "gi"),
    Regex(@"\bagile\b", "gi"),
    Regex(@"\bbandwidth\b", "gi"),
    Regex(@"\bstakeholders?\b", "gi"),
    Regex(@"\bvalue[- ]add\b", "gi"),
    Regex(@"\bthought leader(ship)?\b", "gi"),
    Regex(@"\bbest practices?\b", "gi"),
    Regex(@"\bblue[- ]sky thinking\b", "gi"),
    Regex(@"\bdrink the kool[- ]aid\b", "gi"),
    Regex(@"\bhigh[- ]level\b", "gi"),
    Regex(@"\b30,?000[- ]foot view\b", "gi"),
    Regex(@"\bideate\b", "gi"),
    Regex(@"\boperationalize\b", "gi"),
    Regex(@"\bsocialize\b", "gi"),
    Regex(@"\brock ?star\b", "gi"),
    Regex(@"\bninja\b", "gi")
  ]

  const LegacyTier2Part1: seq<Regex> := [
    Regex(@"\bguru\b", "gi"),
    Regex(@"\bbig data\b", "gi"),
    Regex(@"\bdigital transformation\b", "gi"),
    Regex(@"\bAI[- ]powered\b", "gi"),
    Regex(@"\bcloud[- ]based\b", "gi"),
    Regex(@"\bdata[- ]driven\b", "gi"),
    Regex(@"\bROI\b", "gi"),
    Regex(@"\bKPI\b", "gi"),
    Regex(@"\bdeep dive\b", "gi"),
    Regex(@"\bdeliverables?\b", "gi"),
    Regex(@"\bempower(ment)?\b", "gi"),
    Regex(@"\boptimize\b", "gi"),
    Regex(@"\bstreamline\b", "gi")
  ]

  /** The older checker's Tier 2 list: 2 points per match. */
  const LegacyTier2: seq<Regex> :=
    LegacyTier2Part0 + LegacyTier2Part1

  const LegacyTier3Part0: seq<Regex> := [
    Regex(@"\bfree\b", "gi"),
    Regex(@"\bguaranteed\b", "gi"),
    Regex(@"\bamazing\b", "gi"),
    Regex(@"\bincredible\b", "gi"),
    Regex(@"\bunbelievable\b", "gi"),
    Regex(@"\bmind[- ]blowing\b", "gi"),
    Regex(@"\brevolutionary\b", "gi"),
    Regex(@"\bmiracle\b", "gi"),
    Regex(@"\bbest[- ]in[- ]class\b", "gi"),
    Regex(@"\bclick here\b", "gi"),
    Regex(@"\bbuy now\b", "gi"),
    Regex(@"\bact (now|immediately)\b", "gi"),
    Regex(@"\blimited time offer\b", "gi"),
    Regex(@"\bdon't wait\b", "gi"),
    Regex(@"\bonce in a lifetime\b", "gi"),
    Regex(@"\bno strings attached\b", "gi"),
    Regex(@"\brisk[- ]free\b", "gi"),
    Regex(@"\bmake money\b", "gi"),
    Regex(@"\bearn money\b", "gi"),
    Regex(@"\bproven results\b", "gi"),
    Regex(@"\bspecial promotion\b", "gi"),
    Regex(@"\bsave big\b", "gi"),
    Regex(@"\blowest price\b", "gi"),
    Regex(@"\bbest (deal|price|offer)\b", "gi"),
    Regex(@"\bfree consultation\b", "gi")
  ]

  const LegacyTier3Part1: seq<Regex> := [
    Regex(@"\bmust[- ]have\b", "gi"),
    Regex(@"\bnext[- ]level\b", "gi"),
    Regex(@"\braise(d)? the bar\b", "gi"),
    Regex(@"\bstand out from the crowd\b", "gi"),
    Regex(@"\bcontent is king\b", "gi"),
    Regex(@"\bhit the ground running\b", "gi"),
    Regex(@"\bin a nutshell\b", "gi"),
    Regex(@"\bbasically\b", "gi"),
    Regex(@"\bessentially\b", "gi"),
    Regex(@"\bactually\b", "gi")
  ]

  /** The older checker's Tier 3 list: 1 point per match. */
  const LegacyTier3: seq<Regex> :=
    LegacyTier3Part0 + LegacyTier3Part1

  const LegacyEmojiPart0: seq<Regex> := [
    Regex(@"[\u{1F300}-\u{1F9FF}][\s]*Revolutioniz(e|ing)", "giu"),
    Regex(@"[\u{1F300}-\u{1F9FF}][\s]*Transform(ing|ative)", "giu"),
    Regex(@"[\u{1F300}-\u{1F9FF}][\s]*Innovati(ng|on|ve)", "giu"),
    Regex(@"[\u{1F300}-\u{1F9FF}][\s]*Disrupt(ing|ive)", "giu"),
    Regex(@"[\u{1F300}-\u{1F9FF}][\s]*Game[- ]changer", "giu"),
    Regex(@"[\u{1F300}-\u{1F9FF}][\s]*Unlock(ing)? the", "giu"),
    Regex(@"[\u{1F300}-\u{1F9FF}][\s]*Navigating the", "giu"),
    Regex(@"[\u{1F300}-\u{1F9FF}][\s]*Building the future", "giu"),
    Regex(@"[\u{1F300}-\u{1F9FF}][\s]*Proud to (announce|share)", "giu"),
    Regex(@"[\u{1F300}-\u{1F9FF}][\s]*Thrilled to", "giu"),
    Regex(@"[\u{1F300}-\u{1F9FF}].{0,30}[\u{1F300}-\u{1F9FF}].{0,30}[\u{1F300}-\u{1F9FF}]", "giu"),
    Regex(@"^[\u{1F300}-\u{1F9FF}][\s]*", "gmu"),
    Regex(@"\.[\s]*[\u{1F300}-\u{1F9FF}][\s]*", "gmu")
  ]

  /** The older checker's emoji list: 5 points per match. */
  const LegacyEmoji: seq<Regex> :=
    LegacyEmojiPart0

  // ---------------------------------------------------------------------
  // The g flag
  // ---------------------------------------------------------------------

  lemma LowAggroLeadPart0Global()
    ensures AllGlobal(LowAggroLeadPart0)
  {
    assert forall i :: 0 <= i < |LowAggroLeadPart0| ==> IsGlobal(LowAggroLeadPart0[i]);
  }

  lemma LowAggroLeadPart1Global()
    ensures AllGlobal(LowAggroLeadPart1)
  {
    assert forall i :: 0 <= i < |LowAggroLeadPart1| ==> IsGlobal(LowAggroLeadPart1[i]);
  }

  lemma LowAggroLeadPart2Global()
    ensures AllGlobal(LowAggroLeadPart2)
  {
    assert forall i :: 0 <= i < |LowAggroLeadPart2| ==> IsGlobal(LowAggroLeadPart2[i]);
  }

  lemma LowAggroLeadGlobal()
    ensures |LowAggroLead| == 55 && AllGlobal(LowAggroLead)
  {
    LowAggroLeadPart0Global();
    LowAggroLeadPart1Global();
    LowAggroLeadPart2Global();
    AllGlobalAppend(LowAggroLeadPart0, LowAggroLeadPart1);
    AllGlobalAppend(LowAggroLeadPart0 + LowAggroLeadPart1, LowAggroLeadPart2);
  }

  lemma LowAggroMiddlePart0Global()
    ensures AllGlobal(LowAggroMiddlePart0)
  {
    assert forall i :: 0 <= i < |LowAggroMiddlePart0| ==> IsGlobal(LowAggroMiddlePart0[i]);
  }

  lemma LowAggroMiddleGlobal()
    ensures |LowAggroMiddle| == 5 && AllGlobal(LowAggroMiddle)
  {
    LowAggroMiddlePart0Global();
  }

  lemma LowAggroTrailingPart0Global()
    ensures AllGlobal(LowAggroTrailingPart0)
  {
    assert forall i :: 0 <= i < |LowAggroTrailingPart0| ==> IsGlobal(LowAggroTrailingPart0[i]);
  }

  lemma LowAggroTrailingPart1Global()
    ensures AllGlobal(LowAggroTrailingPart1)
  {
    assert forall i :: 0 <= i < |LowAggroTrailingPart1| ==> IsGlobal(LowAggroTrailingPart1[i]);
  }

  lemma LowAggroTrailingGlobal()
    ensures |LowAggroTrailing| == 35 && AllGlobal(LowAggroTrailing)
  {
    LowAggroTrailingPart0Global();
    LowAggroTrailingPart1Global();
    AllGlobalAppend(LowAggroTrailingPart0, LowAggroTrailingPart1);
  }

  lemma MediumAggroPart0Global()
    ensures AllGlobal(MediumAggroPart0)
  {
    assert forall i :: 0 <= i < |MediumAggroPart0| ==> IsGlobal(MediumAggroPart0[i]);
  }

  lemma MediumAggroPart1Global()
    ensures AllGlobal(MediumAggroPart1)
  {
    assert forall i :: 0 <= i < |MediumAggroPart1| ==> IsGlobal(MediumAggroPart1[i]);
  }

  lemma MediumAggroPart2Global()
    ensures AllGlobal(MediumAggroPart2)
  {
    assert forall i :: 0 <= i < |MediumAggroPart2| ==> IsGlobal(MediumAggroPart2[i]);
  }

  lemma MediumAggroGlobal()
    ensures |MediumAggro| == 67 && AllGlobal(MediumAggro)
  {
    MediumAggroPart0Global();
    MediumAggroPart1Global();
    MediumAggroPart2Global();
    AllGlobalAppend(MediumAggroPart0, MediumAggroPart1);
    AllGlobalAppend(MediumAggroPart0 + MediumAggroPart1, MediumAggroPart2);
  }

  lemma HighAggroPart0Global()
    ensures AllGlobal(HighAggroPart0)
  {
    assert forall i :: 0 <= i < |HighAggroPart0| ==> IsGlobal(HighAggroPart0[i]);
  }

  lemma HighAggroPart1Global()
    ensures AllGlobal(HighAggroPart1)
  {
    assert forall i :: 0 <= i < |HighAggroPart1| ==> IsGlobal(HighAggroPart1[i]);
  }

  lemma HighAggroPart2Global()
    ensures AllGlobal(HighAggroPart2)
  {
    assert forall i :: 0 <= i < |HighAggroPart2| ==> IsGlobal(HighAggroPart2[i]);
  }

  lemma HighAggroGlobal()
    ensures |HighAggro| == 52 && AllGlobal(HighAggro)
  {
    HighAggroPart0Global();
    HighAggroPart1Global();
    HighAggroPart2Global();
    AllGlobalAppend(HighAggroPart0, HighAggroPart1);
    AllGlobalAppend(HighAggroPart0 + HighAggroPart1, HighAggroPart2);
  }

  lemma CheckerTier1ExtraPart0Global()
    ensures AllGlobal(CheckerTier1ExtraPart0)
  {
    assert forall i :: 0 <= i < |CheckerTier1ExtraPart0| ==> IsGlobal(CheckerTier1ExtraPart0[i]);
  }

  lemma CheckerTier1ExtraPart1Global()
    ensures AllGlobal(CheckerTier1ExtraPart1)
  {
    assert forall i :: 0 <= i < |CheckerTier1ExtraPart1| ==> IsGlobal(CheckerTier1ExtraPart1[i]);
  }

  lemma CheckerTier1ExtraPart2Global()
    ensures AllGlobal(CheckerTier1ExtraPart2)
  {
    assert forall i :: 0 <= i < |CheckerTier1ExtraPart2| ==> IsGlobal(CheckerTier1ExtraPart2[i]);
  }

  lemma CheckerTier1ExtraPart3Global()
    ensures AllGlobal(CheckerTier1ExtraPart3)
  {
    assert forall i :: 0 <= i < |CheckerTier1ExtraPart3| ==> IsGlobal(CheckerTier1ExtraPart3[i]);
  }

  lemma CheckerTier1ExtraPart4Global()
    ensures AllGlobal(CheckerTier1ExtraPart4)
  {
    assert forall i :: 0 <= i < |CheckerTier1ExtraPart4| ==> IsGlobal(CheckerTier1ExtraPart4[i]);
  }

  lemma CheckerTier1ExtraGlobal()
    ensures |CheckerTier1Extra| == 102 && AllGlobal(CheckerTier1Extra)
  {
    CheckerTier1ExtraPart0Global();
    CheckerTier1ExtraPart1Global();
    CheckerTier1ExtraPart2Global();
    CheckerTier1ExtraPart3Global();
    CheckerTier1ExtraPart4Global();
    AllGlobalAppend(CheckerTier1ExtraPart0, CheckerTier1ExtraPart1);
    AllGlobalAppend(CheckerTier1ExtraPart0 + CheckerTier1ExtraPart1, CheckerTier1ExtraPart2);
    AllGlobalAppend(CheckerTier1ExtraPart0 + CheckerTier1ExtraPart1 + CheckerTier1ExtraPart2, CheckerTier1ExtraPart3);
    AllGlobalAppend(CheckerTier1ExtraPart0 + CheckerTier1ExtraPart1 + CheckerTier1ExtraPart2 + CheckerTier1ExtraPart3, CheckerTier1ExtraPart4);
  }

  lemma CheckerTier2ExtraPart0Global()
    ensures AllGlobal(CheckerTier2ExtraPart0)
  {
    assert forall i :: 0 <= i < |CheckerTier2ExtraPart0| ==> IsGlobal(CheckerTier2ExtraPart0[i]);
  }

  lemma CheckerTier2ExtraPart1Global()
    ensures AllGlobal(CheckerTier2ExtraPart1)
  {
    assert forall i :: 0 <= i < |CheckerTier2ExtraPart1| ==> IsGlobal(CheckerTier2ExtraPart1[i]);
  }

  lemma CheckerTier2ExtraPart2Global()
    ensures AllGlobal(CheckerTier2ExtraPart2)
  {
    assert forall i :: 0 <= i < |CheckerTier2ExtraPart2| ==> IsGlobal(CheckerTier2ExtraPart2[i]);
  }

  lemma CheckerTier2ExtraPart3Global()
    ensures AllGlobal(CheckerTier2ExtraPart3)
  {
    assert forall i :: 0 <= i < |CheckerTier2ExtraPart3| ==> IsGlobal(CheckerTier2ExtraPart3[i]);
  }

  lemma CheckerTier2ExtraPart4Global()
    ensures AllGlobal(CheckerTier2ExtraPart4)
  {
    assert forall i :: 0 <= i < |CheckerTier2ExtraPart4| ==> IsGlobal(CheckerTier2ExtraPart4[i]);
  }

  lemma CheckerTier2ExtraGlobal()
    ensures |CheckerTier2Extra| == 109 && AllGlobal(CheckerTier2Extra)
  {
    CheckerTier2ExtraPart0Global();
    CheckerTier2ExtraPart1Global();
    CheckerTier2ExtraPart2Global();
    CheckerTier2ExtraPart3Global();
    CheckerTier2ExtraPart4Global();
    AllGlobalAppend(CheckerTier2ExtraPart0, CheckerTier2ExtraPart1);
    AllGlobalAppend(CheckerTier2ExtraPart0 + CheckerTier2ExtraPart1, CheckerTier2ExtraPart2);
    AllGlobalAppend(CheckerTier2ExtraPart0 + CheckerTier2ExtraPart1 + CheckerTier2ExtraPart2, CheckerTier2ExtraPart3);
    AllGlobalAppend(CheckerTier2ExtraPart0 + CheckerTier2ExtraPart1 + CheckerTier2ExtraPart2 + CheckerTier2ExtraPart3, CheckerTier2ExtraPart4);
  }

  lemma CheckerTier3ExtraPart0Global()
    ensures AllGlobal(CheckerTier3ExtraPart0)
  {
    assert forall i :: 0 <= i < |CheckerTier3ExtraPart0| ==> IsGlobal(CheckerTier3ExtraPart0[i]);
  }

  lemma CheckerTier3ExtraPart1Global()
    ensures AllGlobal(CheckerTier3ExtraPart1)
  {
    assert forall i :: 0 <= i < |CheckerTier3ExtraPart1| ==> IsGlobal(CheckerTier3ExtraPart1[i]);
  }

  lemma CheckerTier3ExtraPart2Global()
    ensures AllGlobal(CheckerTier3ExtraPart2)
  {
    assert forall i :: 0 <= i < |CheckerTier3ExtraPart2| ==> IsGlobal(CheckerTier3ExtraPart2[i]);
  }

  lemma CheckerTier3ExtraPart3Global()
    ensures AllGlobal(CheckerTier3ExtraPart3)
  {
    assert forall i :: 0 <= i < |CheckerTier3ExtraPart3| ==> IsGlobal(CheckerTier3ExtraPart3[i]);
  }

  lemma CheckerTier3ExtraPart4Global()
    ensures AllGlobal(CheckerTier3ExtraPart4)
  {
    assert forall i :: 0 <= i < |CheckerTier3ExtraPart4| ==> IsGlobal(CheckerTier3ExtraPart4[i]);
  }

  lemma CheckerTier3ExtraPart5Global()
    ensures AllGlobal(CheckerTier3ExtraPart5)
  {
    assert forall i :: 0 <= i < |CheckerTier3ExtraPart5| ==> IsGlobal(CheckerTier3ExtraPart5[i]);
  }

  lemma CheckerTier3ExtraGlobal()
    ensures |CheckerTier3Extra| == 145 && AllGlobal(CheckerTier3Extra)
  {
    CheckerTier3ExtraPart0Global();
    CheckerTier3ExtraPart1Global();
    CheckerTier3ExtraPart2Global();
    CheckerTier3ExtraPart3Global();
    CheckerTier3ExtraPart4Global();
    CheckerTier3ExtraPart5Global();
    AllGlobalAppend(CheckerTier3ExtraPart0, CheckerTier3ExtraPart1);
    AllGlobalAppend(CheckerTier3ExtraPart0 + CheckerTier3ExtraPart1, CheckerTier3ExtraPart2);
    AllGlobalAppend(CheckerTier3ExtraPart0 + CheckerTier3ExtraPart1 + CheckerTier3ExtraPart2, CheckerTier3ExtraPart3);
    AllGlobalAppend(CheckerTier3ExtraPart0 + CheckerTier3ExtraPart1 + CheckerTier3ExtraPart2 + CheckerTier3ExtraPart3, CheckerTier3ExtraPart4);
    AllGlobalAppend(CheckerTier3ExtraPart0 + CheckerTier3ExtraPart1 + CheckerTier3ExtraPart2 + CheckerTier3ExtraPart3 + CheckerTier3ExtraPart4, CheckerTier3ExtraPart5);
  }

  lemma CheckerEmojiPart0Global()
    ensures AllGlobal(CheckerEmojiPart0)
  {
    assert forall i :: 0 <= i < |CheckerEmojiPart0| ==> IsGlobal(CheckerEmojiPart0[i]);
  }

  lemma CheckerEmojiPart1Global()
    ensures AllGlobal(CheckerEmojiPart1)
  {
    assert forall i :: 0 <= i < |CheckerEmojiPart1| ==> IsGlobal(CheckerEmojiPart1[i]);
  }

  lemma CheckerEmojiPart2Global()
    ensures AllGlobal(CheckerEmojiPart2)
  {
    assert forall i :: 0 <= i < |CheckerEmojiPart2| ==> IsGlobal(CheckerEmojiPart2[i]);
  }

  lemma CheckerEmojiPart3Global()
    ensures AllGlobal(CheckerEmojiPart3)
  {
    assert forall i :: 0 <= i < |CheckerEmojiPart3| ==> IsGlobal(CheckerEmojiPart3[i]);
  }

  lemma CheckerEmojiPart4Global()
    ensures AllGlobal(CheckerEmojiPart4)
  {
    assert forall i :: 0 <= i < |CheckerEmojiPart4| ==> IsGlobal(CheckerEmojiPart4[i]);
  }

  lemma CheckerEmojiPart5Global()
    ensures AllGlobal(CheckerEmojiPart5)
  {
    assert forall i :: 0 <= i < |CheckerEmojiPart5| ==> IsGlobal(CheckerEmojiPart5[i]);
  }

  lemma CheckerEmojiGlobal()
    ensures |CheckerEmoji| == 135 && AllGlobal(CheckerEmoji)
  {
    CheckerEmojiPart0Global();
    CheckerEmojiPart1Global();
    CheckerEmojiPart2Global();
    CheckerEmojiPart3Global();
    CheckerEmojiPart4Global();
    CheckerEmojiPart5Global();
    AllGlobalAppend(CheckerEmojiPart0, CheckerEmojiPart1);
    AllGlobalAppend(CheckerEmojiPart0 + CheckerEmojiPart1, CheckerEmojiPart2);
    AllGlobalAppend(CheckerEmojiPart0 + CheckerEmojiPart1 + CheckerEmojiPart2, CheckerEmojiPart3);
    AllGlobalAppend(CheckerEmojiPart0 + CheckerEmojiPart1 + CheckerEmojiPart2 + CheckerEmojiPart3, CheckerEmojiPart4);
    AllGlobalAppend(CheckerEmojiPart0 + CheckerEmojiPart1 + CheckerEmojiPart2 + CheckerEmojiPart3 + CheckerEmojiPart4, CheckerEmojiPart5);
  }

  lemma StopWordOpenersPart0Global()
    ensures AllGlobal(StopWordOpenersPart0)
  {
    assert forall i :: 0 <= i < |StopWordOpenersPart0| ==> IsGlobal(StopWordOpenersPart0[i]);
  }

  lemma StopWordOpenersGlobal()
    ensures |StopWordOpeners| == 19 && AllGlobal(StopWordOpeners)
  {
    StopWordOpenersPart0Global();
  }

  lemma ContentEmojiPart0Global()
    ensures AllGlobal(ContentEmojiPart0)
  {
    assert forall i :: 0 <= i < |ContentEmojiPart0| ==> IsGlobal(ContentEmojiPart0[i]);
  }

  lemma ContentEmojiGlobal()
    ensures |ContentEmoji| == 17 && AllGlobal(ContentEmoji)
  {
    ContentEmojiPart0Global();
  }

  lemma LegacyTier1LeadPart0Global()
    ensures AllGlobal(LegacyTier1LeadPart0)
  {
    assert forall i :: 0 <= i < |LegacyTier1LeadPart0| ==> IsGlobal(LegacyTier1LeadPart0[i]);
  }

  lemma LegacyTier1LeadPart1Global()
    ensures AllGlobal(LegacyTier1LeadPart1)
  {
    assert forall i :: 0 <= i < |LegacyTier1LeadPart1| ==> IsGlobal(LegacyTier1LeadPart1[i]);
  }

  lemma LegacyTier1LeadGlobal()
    ensures |LegacyTier1Lead| == 31 && AllGlobal(LegacyTier1Lead)
  {
    LegacyTier1LeadPart0Global();
    LegacyTier1LeadPart1Global();
    AllGlobalAppend(LegacyTier1LeadPart0, LegacyTier1LeadPart1);
  }

  lemma LegacyTier1MiddlePart0Global()
    ensures AllGlobal(LegacyTier1MiddlePart0)
  {
    assert forall i :: 0 <= i < |LegacyTier1MiddlePart0| ==> IsGlobal(LegacyTier1MiddlePart0[i]);
  }

  lemma LegacyTier1MiddlePart1Global()
    ensures AllGlobal(LegacyTier1MiddlePart1)
  {
    assert forall i :: 0 <= i < |LegacyTier1MiddlePart1| ==> IsGlobal(LegacyTier1MiddlePart1[i]);
  }

  lemma LegacyTier1MiddleGlobal()
    ensures |LegacyTier1Middle| == 26 && AllGlobal(LegacyTier1Middle)
  {
    LegacyTier1MiddlePart0Global();
    LegacyTier1MiddlePart1Global();
    AllGlobalAppend(LegacyTier1MiddlePart0, LegacyTier1MiddlePart1);
  }

  lemma LegacyTier2Part0Global()
    ensures AllGlobal(LegacyTier2Part0)
  {
    assert forall i :: 0 <= i < |LegacyTier2Part0| ==> IsGlobal(LegacyTier2Part0[i]);
  }

  lemma LegacyTier2Part1Global()
    ensures AllGlobal(LegacyTier2Part1)
  {
    assert forall i :: 0 <= i < |LegacyTier2Part1| ==> IsGlobal(LegacyTier2Part1[i]);
  }

  lemma LegacyTier2Global()
    ensures |LegacyTier2| == 38 && AllGlobal(LegacyTier2)
  {
    LegacyTier2Part0Global();
    LegacyTier2Part1Global();
    AllGlobalAppend(LegacyTier2Part0, LegacyTier2Part1);
  }

  lemma LegacyTier3Part0Global()
    ensures AllGlobal(LegacyTier3Part0)
  {
    assert forall i :: 0 <= i < |LegacyTier3Part0| ==> IsGlobal(LegacyTier3Part0[i]);
  }

  lemma LegacyTier3Part1Global()
    ensures AllGlobal(LegacyTier3Part1)
  {
    assert forall i :: 0 <= i < |LegacyTier3Part1| ==> IsGlobal(LegacyTier3Part1[i]);
  }

  lemma LegacyTier3Global()
    ensures |LegacyTier3| == 35 && AllGlobal(LegacyTier3)
  {
    LegacyTier3Part0Global();
    LegacyTier3Part1Global();
    AllGlobalAppend(LegacyTier3Part0, LegacyTier3Part1);
  }

  lemma LegacyEmojiPart0Global()
    ensures AllGlobal(LegacyEmojiPart0)
  {
    assert forall i :: 0 <= i < |LegacyEmojiPart0| ==> IsGlobal(LegacyEmojiPart0[i]);
  }

  lemma LegacyEmojiGlobal()
    ensures |LegacyEmoji| == 13 && AllGlobal(LegacyEmoji)
  {
    LegacyEmojiPart0Global();
  }

  // ---------------------------------------------------------------------
  // Shapes of the lists
  // ---------------------------------------------------------------------

  /** The content script's Tier 1 list has 98 patterns; apart from the
      three line-anchored openers at positions 55, 61 and 62, which lack the
      `g` flag, every run of it is global. */
  lemma LowAggroShape()
    ensures |LowAggro| == 98
    ensures AllGlobal(LowAggroLead) && AllGlobal(LowAggroMiddle) && AllGlobal(LowAggroTrailing)
    ensures !IsGlobal(ConclusionOpener) && !IsGlobal(ContinuesToOpener) && !IsGlobal(TodaysWorldOpener)
    ensures LowAggro[55] == ConclusionOpener && LowAggro[61] == ContinuesToOpener && LowAggro[62] == TodaysWorldOpener
  {
    LowAggroLeadGlobal();
    LowAggroMiddleGlobal();
    LowAggroTrailingGlobal();
  }

  /** Every other list of the content script is global. */
  lemma ContentListsShape()
    ensures |MediumAggro| == 67 && AllGlobal(MediumAggro)
    ensures |HighAggro| == 52 && AllGlobal(HighAggro)
    ensures |StopWordOpeners| == 19 && AllGlobal(StopWordOpeners)
    ensures |EmDashPatterns| == 2 && AllGlobal(EmDashPatterns)
    ensures |ContentEmoji| == 17 && AllGlobal(ContentEmoji)
  {
    MediumAggroGlobal();
    HighAggroGlobal();
    StopWordOpenersGlobal();
    ContentEmojiGlobal();
  }

  /** The checker's Tier 2 list: 176 patterns, all global. */
  lemma CheckerTier2Shape()
    ensures |CheckerTier2| == 176 && AllGlobal(CheckerTier2)
  {
    MediumAggroGlobal();
    CheckerTier2ExtraGlobal();
    AllGlobalAppend(MediumAggro, CheckerTier2Extra);
  }

  /** The checker's Tier 3 list: 197 patterns, all global. */
  lemma CheckerTier3Shape()
    ensures |CheckerTier3| == 197 && AllGlobal(CheckerTier3)
  {
    HighAggroGlobal();
    CheckerTier3ExtraGlobal();
    AllGlobalAppend(HighAggro, CheckerTier3Extra);
  }

  /** The older checker's Tier 1 list has 78 patterns, all global, and
      holds the span-of-em-dashes pattern at position 31, the stop-word
      openers at positions 58 to 76 and the lone em dash at 77. */
  lemma LegacyTier1Shape()
    ensures |LegacyTier1| == 78 && AllGlobal(LegacyTier1)
    ensures LegacyTier1[31] == EmDashSpan && LegacyTier1[77] == LoneEmDash
    ensures LegacyTier1[58..77] == StopWordOpeners
  {
    assert |LegacyTier1Lead + [EmDashSpan] + LegacyTier1Middle| == 58;
    LegacyTier1LeadGlobal();
    LegacyTier1MiddleGlobal();
    StopWordOpenersGlobal();
    AllGlobalAppend(LegacyTier1Lead, [EmDashSpan]);
    AllGlobalAppend(LegacyTier1Lead + [EmDashSpan], LegacyTier1Middle);
    AllGlobalAppend(LegacyTier1Lead + [EmDashSpan] + LegacyTier1Middle, StopWordOpeners);
    AllGlobalAppend(LegacyTier1Lead + [EmDashSpan] + LegacyTier1Middle + StopWordOpeners, [LoneEmDash]);
  }

  /** The older checker's other lists: 38, 35 and 13 patterns, all global. */
  lemma LegacyListsShape()
    ensures |LegacyTier2| == 38 && |LegacyTier3| == 35 && |LegacyEmoji| == 13
    ensures AllGlobal(LegacyTier2) && AllGlobal(LegacyTier3) && AllGlobal(LegacyEmoji)
  {
    LegacyTier2Global();
    LegacyTier3Global();
    LegacyEmojiGlobal();
  }

}

/** The default pattern lists of the settings page (src/settings.js), in
    the string form `"/body/flags"` the settings store. */
module SettingsDefaults {

  const DefaultTier1Part0: seq<string> := [
    @"/\bdelve into\b/gi",
    @"/\bdelving into (the )?(intricacies|complexities)\b/gi",
    @"/\bnavigat(e|ing) (the|this) (complex )?(landscape|realm|world)\b/gi",
    @"/\bin (today's|the) (rapidly )?evolving (landscape|world|market|era)\b/gi",
    @"/\bembark on (a|this|your) journey\b/gi",
    @"/\btapestry of\b/gi",
    @"/\brealm of possibilities\b/gi",
    @"/\bultimately,? (the )?(choice|decision) is yours\b/gi",
    @"/\bmultifaceted (nature|approach|aspect)\b/gi",
    @"/\bholistic(ally)? (approach|perspective|view)\b/gi",
    @"/\bseamlessly integrat(e|ing|ed)\b/gi",
    @"/\bunlock (the potential|new possibilities|unprecedented)\b/gi",
    @"/\bgame-?chang(er|ing)\b/gi",
    @"/\bparadigm shift\b/gi",
    @"/\bgroundbreaking\b/gi",
    @"/\bunprecedented\b/gi",
    @"/\brobust (solution|framework|system|approach)\b/gi",
    @"/\bcomprehensive (guide|overview|analysis|approach)\b/gi",
    @"/\btransformative (power|potential|impact|insights)\b/gi",
    @"/\btreasure trove\b/gi",
    @"/\buncharted waters\b/gi",
    @"/\bdeep dive into\b/gi",
    @"/\bshed(ding)? light on\b/gi",
    @"/\bat the end of the day\b/gi",
    @"/\bin conclusion\b/gi"
  ]

  const DefaultTier1Part1: seq<string> := [
    @"/\bin summary\b/gi",
    @"/\bmoving forward\b/gi",
    @"/\bkey takeaways?\b/gi",
    @"/\b—.{10,100}—/g",
    @"/\bbreakthrough(s)?\b/gi",
    @"/\bgiant leap\b/gi",
    @"/\bexciting (possibilities|advances|opportunities|future)\b/gi",
    @"/\bdazzling (pace|speed|rate)\b/gi",
    @"/\bthrilling time to be alive\b/gi",
    @"/\badvanced .{5,30} (technology|system|solution|method)\b/gi",
    @"/\bstunning (results|advances|breakthroughs|discoveries)\b/gi",
    @"/\breal[- ]world (impact|advances|applications|use)\b/gi",
    @"/\bpositioning .{5,30} as game[- ]changer/gi",
    @"/\bpace is accelerat(ing|ed)\b/gi",
    @"/\bcould soon become\b/gi",
    @"/\bopens .{5,30} possibilities\b/gi",
    @"/\breignites? debates? about\b/gi",
    @"/\bneed for new (regulations|laws|rules|policies)\b/gi",
    @"/\brewriting (history|the books)\b/gi",
    @"/\bprompting new questions about\b/gi",
    @"/\bit'?s clear that\b/gi",
    @"/\btruly (is|are) a .{5,30} time\b/gi",
    @"/\bwhether it'?s .{10,50} or .{10,50}, it\b/gi",
    @"/\bfrom .{5,30} to .{5,30}, (it|this|these)\b/gi",
    @"/\bIntroducing .{5,30}, the (first|next|future)\b/gi"
  ]

  const DefaultTier1Part2: seq<string> := [
    @"/\bImagine .{10,50} — that'?s\b/gi",
    @"/\bFor (decades|years), .{10,50} seemed like\b/gi",
    @"/\bin 20\d{2}, it'?s\b/gi",
    @"/\bNot all .{5,30} discoveries are\b/gi",
    @"/\bscience fiction .{5,30} but in 20\d{2}\b/gi",
    @"/^(I'm|I am) (so |very )?(excited|thrilled|proud|happy|delighted|pleased|honored|grateful|blessed) to (announce|share|reveal|tell you|introduce)/gim",
    @"/^(Can't|Cannot) wait to (share|tell you|announce|reveal)/gim",
    @"/^(Big|Exciting|Great|Amazing) news[!:]/gim",
    @"/^Just launched/gim",
    @"/^(Today|This week|This month) (I'm|I am|we're|we are) (announcing|launching|releasing|sharing|excited to)/gim",
    @"/^Excited to (share|announce|reveal|tell you|introduce)/gim",
    @"/^Thrilled to (share|announce|reveal|tell you|introduce)/gim",
    @"/^Proud to (share|announce|reveal|tell you|introduce)/gim",
    @"/^Happy to (share|announce|reveal|tell you|introduce)/gim",
    @"/^Delighted to (share|announce|reveal|tell you|introduce)/gim",
    @"/^Honored to (share|announce|reveal|tell you|introduce)/gim",
    @"/^Grateful to (share|announce|reveal|tell you|introduce)/gim",
    @"/^Blessed to (share|announce|reveal|tell you|introduce)/gim",
    @"/^Guess what[!?]/gim",
    @"/^You('re| are) not going to believe/gim",
    @"/^(Check out|Take a look at|Don't miss) (this|what)/gim",
    @"/^(Major|Huge) announcement[!:]/gim",
    @"/^(Finally|At last)[,!]/gim",
    @"/^(Hot|Breaking) (take|news)[!:]/gim",
    @"/—/g"
  ]

  /** Default Tier 1 pattern strings. */
  const DefaultTier1: seq<string> :=
    DefaultTier1Part0 + DefaultTier1Part1 + DefaultTier1Part2

  const DefaultTier2Part0: seq<string> := [
    @"/\bsynergy\b/gi",
    @"/\bleverage\b/gi",
    @"/\bcircle back\b/gi",
    @"/\blow[- ]hanging fruit\b/gi",
    @"/\bmove the needle\b/gi",
    @"/\bthink outside the box\b/gi",
    @"/\btouch base\b/gi",
    @"/\btake (it|this) offline\b/gi",
    @"/\bpivot\b/gi",
    @"/\bdisrupt(ive)?\b/gi",
    @"/\bagile\b/gi",
    @"/\bbandwidth\b/gi",
    @"/\bstakeholders?\b/gi",
    @"/\bvalue[- ]add\b/gi",
    @"/\bthought leader(ship)?\b/gi",
    @"/\bbest practices?\b/gi",
    @"/\bblue[- ]sky thinking\b/gi",
    @"/\bdrink the kool[- ]aid\b/gi",
    @"/\bhigh[- ]level\b/gi",
    @"/\b30,?000[- ]foot view\b/gi",
    @"/\bideate\b/gi",
    @"/\boperationalize\b/gi",
    @"/\bsocialize\b/gi",
    @"/\brock ?star\b/gi",
    @"/\bninja\b/gi"
  ]

  const DefaultTier2Part1: seq<string> := [
    @"/\bguru\b/gi",
    @"/\bbig data\b/gi",
    @"/\bdigital transformation\b/gi",
    @"/\bAI[- ]powered\b/gi",
    @"/\bcloud[- ]based\b/gi",
    @"/\bdata[- ]driven\b/gi",
    @"/\bROI\b/gi",
    @"/\bKPI\b/gi",
    @"/\bdeep dive\b/gi",
    @"/\bdeliverables?\b/gi",
    @"/\bempower(ment)?\b/gi",
    @"/\boptimize\b/gi",
    @"/\bstreamline\b/gi"
  ]

  /** Default Tier 2 pattern strings. */
  const DefaultTier2: seq<string> :=
    DefaultTier2Part0 + DefaultTier2Part1

  const DefaultTier3Part0: seq<string> := [
    @"/\bfree\b/gi",
    @"/\bguaranteed\b/gi",
    @"/\bamazing\b/gi",
    @"/\bincredible\b/gi",
    @"/\bunbelievable\b/gi",
    @"/\bmind[- ]blowing\b/gi",
    @"/\brevolutionary\b/gi",
    @"/\bmiracle\b/gi",
    @"/\bbest[- ]in[- ]class\b/gi",
    @"/\bclick here\b/gi",
    @"/\bbuy now\b/gi",
    @"/\bact (now|immediately)\b/gi",
    @"/\blimited time offer\b/gi",
    @"/\bdon'?t wait\b/gi",
    @"/\bonce in a lifetime\b/gi",
    @"/\bno strings attached\b/gi",
    @"/\brisk[- ]free\b/gi",
    @"/\bmake money\b/gi",
    @"/\bearn money\b/gi",
    @"/\bproven results\b/gi",
    @"/\bspecial promotion\b/gi",
    @"/\bsave big\b/gi",
    @"/\blowest price\b/gi",
    @"/\bbest (deal|price|offer)\b/gi",
    @"/\bfree consultation\b/gi"
  ]

  const DefaultTier3Part1: seq<string> := [
    @"/\bmust[- ]have\b/gi",
    @"/\bnext[- ]level\b/gi",
    @"/\braise(d)? the bar\b/gi",
    @"/\bstand out from the crowd\b/gi",
    @"/\bcontent is king\b/gi",
    @"/\bhit the ground running\b/gi",
    @"/\bin a nutshell\b/gi",
    @"/\bbasically\b/gi",
    @"/\bessentially\b/gi",
    @"/\bactually\b/gi"
  ]

  /** Default Tier 3 pattern strings. */
  const DefaultTier3: seq<string> :=
    DefaultTier3Part0 + DefaultTier3Part1

  /** The three default lists have 75, 38 and 35 entries, and the entries
      written with an apostrophe sit where the settings page puts them. */
  lemma DefaultsShape()
    ensures |DefaultTier1| == 75 && |DefaultTier2| == 38 && |DefaultTier3| == 35
    ensures DefaultTier1[3] == @"/\bin (today's|the) (rapidly )?evolving (landscape|world|market|era)\b/gi"
    ensures DefaultTier1[45] == @"/\bit'?s clear that\b/gi"
    ensures DefaultTier1[47] == @"/\bwhether it'?s .{10,50} or .{10,50}, it\b/gi"
    ensures DefaultTier1[50] == @"/\bImagine .{10,50} — that'?s\b/gi"
    ensures DefaultTier1[52] == @"/\bin 20\d{2}, it'?s\b/gi"
    ensures DefaultTier1[55] == @"/^(I'm|I am) (so |very )?(excited|thrilled|proud|happy|delighted|pleased|honored|grateful|blessed) to (announce|share|reveal|tell you|introduce)/gim"
    ensures DefaultTier1[56] == @"/^(Can't|Cannot) wait to (share|tell you|announce|reveal)/gim"
    ensures DefaultTier1[59] == @"/^(Today|This week|This month) (I'm|I am|we're|we are) (announcing|launching|releasing|sharing|excited to)/gim"
    ensures DefaultTier1[69] == @"/^You('re| are) not going to believe/gim"
    ensures DefaultTier1[70] == @"/^(Check out|Take a look at|Don't miss) (this|what)/gim"
    ensures DefaultTier3[13] == @"/\bdon'?t wait\b/gi"
  {
  }
}

/** The older transcript search over the thirty-minute circuit design video: every
    segment is scored by literal keyword occurrences, topic hits, a table of related
    concepts and three query patterns; the segments that score are sorted, cut to eight
    and turned into previews. Scores are kept in integer tenths (0.3 is 3). */
module CircuitTranscript {
  import opened Text
  import opened Seqs
  import opened TimeFormat
  import opened Assistant

  datatype Segment = Segment(timestamp: nat, timeDisplay: string, text: string, topics: seq<string>)

  datatype Transcript = Transcript(videoId: string, title: string, duration: nat, segments: seq<Segment>)

  datatype RelevantTimestamp = RelevantTimestamp(timestamp: nat, timeDisplay: string, relevance: real, preview: string)

  /** A segment with its accumulated score. */
  datatype ScoredSegment = ScoredSegment(segment: Segment, score: nat)

  /** A concept of the related-words table. */
  datatype Concept = Concept(name: string, relatedWords: seq<string>)

  // ---------------------------------------------------------------- the transcript

  const SegmentText0: string := "Welcome to this comprehensive guide on circuit design for electricians. Today we'll cover everything from basic electrical theory to practical circuit troubleshooting. Whether you're just starting out or need a refresher, this video will help you understand the fundamentals."
  const SegmentText1: string := "Before we dive into circuit design, let's review the basic principles of electricity. Electricity is the flow of electrons through a conductor, and understanding this flow is crucial for any electrical work."
  const SegmentText2: string := "The three fundamental quantities in electrical circuits are voltage, current, and resistance. Voltage is the electrical pressure that pushes electrons through a circuit, measured in volts. Current is the actual flow of electrons, measured in amperes or amps."
  const SegmentText3: string := "Resistance opposes the flow of current and is measured in ohms. Every component in a circuit has some resistance, and this resistance determines how much current will flow when voltage is applied."
  const SegmentText4: string := "This brings us to Ohm's Law, the most important equation in electrical work. Ohm's Law states that voltage equals current times resistance, or V equals I times R. This simple equation allows us to calculate any unknown quantity when we know the other two."
  const SegmentText5: string := "For example, if we have a 120-volt circuit with a 12-ohm load, we can calculate the current by dividing voltage by resistance: 120 volts divided by 12 ohms equals 10 amperes. This is essential for determining proper wire sizing and circuit protection."
  const SegmentText6: string := "Now let's look at circuit symbols and diagrams. Every electrical component has a standardized symbol used in circuit diagrams. Resistors are shown as zigzag lines, capacitors as parallel lines, and switches as breaks in the line that can be closed."
  const SegmentText7: string := "Understanding these symbols is crucial for reading electrical schematics. A good electrician must be able to interpret circuit diagrams quickly and accurately to troubleshoot problems and install new circuits properly."
  const SegmentText8: string := "There are two basic ways to connect components in circuits: series and parallel. In a series circuit, components are connected end-to-end, so current flows through each component in sequence."
  const SegmentText9: string := "In series circuits, the current is the same through all components, but the voltage divides across each component based on its resistance. If one component fails in a series circuit, the entire circuit stops working."
  const SegmentText10: string := "Parallel circuits connect components side-by-side, creating multiple paths for current. In parallel circuits, voltage is the same across all components, but current divides based on the resistance of each branch."
  const SegmentText11: string := "Most residential and commercial electrical systems use parallel circuits because if one component fails, the others continue to operate. This is why when one light bulb burns out, the others stay on."
  const SegmentText12: string := "Let's discuss power calculations. Power is the rate at which electrical energy is consumed and is measured in watts. The basic power formula is P equals V times I, or power equals voltage times current."
  const SegmentText13: string := "We can also calculate power using Ohm's Law variations: P equals I squared times R, or P equals V squared divided by R. These formulas are essential for determining circuit capacity and component ratings."
  const SegmentText14: string := "Now let's look at common electrical components. Resistors limit current flow and are used in control circuits and electronic devices. They're color-coded to indicate their resistance value and tolerance."
  const SegmentText15: string := "Capacitors store electrical energy temporarily and are used in motor starting circuits and power factor correction. They're rated by capacitance in farads and maximum working voltage."
  const SegmentText16: string := "Inductors, or coils, oppose changes in current and are found in motors, transformers, and ballasts. They store energy in a magnetic field rather than an electric field like capacitors."
  const SegmentText17: string := "Diodes allow current to flow in only one direction and are used in rectifier circuits and protection circuits. LEDs are special diodes that emit light when current flows through them."
  const SegmentText18: string := "Switches control current flow by opening and closing circuits. There are many types: single-pole single-throw, double-pole double-throw, momentary, and maintained contact switches."
  const SegmentText19: string := "Circuit protection is critical for safety. Fuses and circuit breakers protect circuits from overcurrent conditions. Fuses are one-time devices that must be replaced, while breakers can be reset."
  const SegmentText20: string := "Ground Fault Circuit Interrupters, or GFCIs, protect people from electrical shock by detecting current imbalances between hot and neutral conductors. They're required in wet locations like bathrooms and kitchens."
  const SegmentText21: string := "Arc Fault Circuit Interrupters, or AFCIs, protect against electrical fires by detecting dangerous arcing conditions in circuits. They're now required in most residential bedroom circuits."
  const SegmentText22: string := "When designing circuits, we must consider load calculations. Total up all the loads that will be connected to determine the required wire size and circuit protection ratings."
  const SegmentText23: string := "Wire sizing is based on current-carrying capacity, or ampacity. The National Electrical Code provides tables showing the maximum current each wire size can safely carry under various conditions."
  const SegmentText24: string := "Voltage drop is another important consideration. Long wire runs or undersized conductors can cause voltage drop, resulting in poor performance of connected equipment."
  const SegmentText25: string := "To calculate voltage drop, use the formula: VD equals 2 times K times I times L divided by the circular mil area, where K is the conductor material constant, I is current, and L is length."
  const SegmentText26: string := "Now let's discuss troubleshooting techniques. When a circuit isn't working, start with visual inspection. Look for obvious problems like loose connections, burned components, or damaged wires."
  const SegmentText27: string := "Use a multimeter to measure voltage, current, and resistance. Always test for voltage before working on any circuit, and use proper lockout/tagout procedures to ensure safety."
  const SegmentText28: string := "When measuring resistance, always turn off power to the circuit first. Resistance measurements must be taken with no voltage present, or you'll get inaccurate readings and potentially damage your meter."
  const SegmentText29: string := "For current measurements, you typically use a clamp meter around one conductor. This measures current without breaking the circuit. Be sure to clamp around only one conductor, not multiple conductors together."
  const SegmentText30: string := "Continuity testing checks if current can flow through a circuit or component. Set your meter to the continuity or ohms function and touch the probes to both ends of the circuit path."
  const SegmentText31: string := "Insulation testing uses a megohmmeter to check the insulation between conductors and ground. This is important for motor testing and cable testing in industrial applications."
  const SegmentText32: string := "Three-phase power is common in commercial and industrial settings. In three-phase systems, power is delivered through three conductors, each 120 degrees out of phase with the others."
  const SegmentText33: string := "Three-phase power calculations are different from single-phase. For three-phase power, P equals the square root of 3 times voltage times current times power factor, or approximately 1.732 times V times I times PF."
  const SegmentText34: string := "Power factor is the ratio of real power to apparent power and is important in AC circuits with reactive components like motors and transformers. Poor power factor can result in higher energy costs."
  const SegmentText35: string := "Transformers change voltage levels in electrical systems. They work on the principle of electromagnetic induction and are essential for power distribution from generation to end users."
  const SegmentText36: string := "Transformer calculations use the turns ratio: the primary voltage divided by secondary voltage equals the primary turns divided by secondary turns. Current relationships are inverse to voltage."
  const SegmentText37: string := "Motor control circuits are essential in industrial applications. They typically include contactors for switching power, overload relays for protection, and control circuits for operation."
  const SegmentText38: string := "Start-stop circuits use momentary pushbuttons and holding contacts to control motor operation. The start button energizes the contactor, and the holding contact keeps it energized until the stop button is pressed."
  const SegmentText39: string := "Safety is paramount in electrical work. Always follow proper lockout/tagout procedures, use appropriate PPE, and test circuits before working on them. Remember: electricity is invisible and unforgiving."
  const SegmentText40: string := "Code compliance is also crucial. The National Electrical Code is updated every three years, and local codes may have additional requirements. Stay current with code changes to ensure safe, legal installations."
  const SegmentText41: string := "When installing new circuits, always use proper junction boxes, secure all connections, and ensure adequate wire fill ratios. Poor installation practices can lead to failures and safety hazards."
  const SegmentText42: string := "Grounding and bonding are critical for safety. The grounding system provides a path for fault current to flow, allowing circuit protection devices to operate and clear faults quickly."
  const SegmentText43: string := "Equipment grounding conductors connect metal enclosures to the grounding system. This ensures that any fault to the enclosure will create a path for current to flow and trip the circuit breaker."
  const SegmentText44: string := "Neutral and grounding conductors serve different purposes and should never be connected together except at the service entrance. This separation prevents dangerous neutral current on equipment grounds."
  const SegmentText45: string := "Energy efficiency is becoming increasingly important. LED lighting, high-efficiency motors, and smart controls can significantly reduce energy consumption in electrical systems."
  const SegmentText46: string := "Smart electrical systems incorporate automation and monitoring capabilities. These systems can optimize energy use, provide remote monitoring, and integrate with building management systems."
  const SegmentText47: string := "As technology advances, electricians must stay current with new products and techniques. Renewable energy systems, electric vehicle charging, and energy storage are growing areas in the electrical field."
  const SegmentText48: string := "Continuing education is essential for career growth. Many states require continuing education for license renewal, and staying current with technology and code changes is crucial for success."
  const SegmentText49: string := "In summary, successful circuit design requires understanding basic electrical theory, proper application of Ohm's Law, knowledge of components and their characteristics, and adherence to safety and code requirements."
  const SegmentText50: string := "Remember to always prioritize safety, use proper tools and techniques, and never hesitate to consult references or ask for help when needed. The electrical field is constantly evolving, and there's always more to learn."
  const SegmentText51: string := "Practice these concepts regularly, and don't be afraid to work through calculations and examples. The more you practice, the more confident and competent you'll become as an electrician."
  const SegmentText52: string := "Thank you for watching this comprehensive guide to circuit design. Keep studying, stay safe, and remember that mastering electrical work takes time and dedication. Good luck in your electrical career!"

  /** The `timestamp` column of the segment table. */
  function TimestampOf(i: nat): nat
    requires i < 53
  {
    match i
    case 0 => 0
    case 1 => 25
    case 2 => 55
    case 3 => 85
    case 4 => 115
    case 5 => 145
    case 6 => 175
    case 7 => 205
    case 8 => 235
    case 9 => 265
    case 10 => 295
    case 11 => 325
    case 12 => 355
    case 13 => 385
    case 14 => 415
    case 15 => 445
    case 16 => 475
    case 17 => 505
    case 18 => 535
    case 19 => 565
    case 20 => 595
    case 21 => 625
    case 22 => 655
    case 23 => 685
    case 24 => 715
    case 25 => 745
    case 26 => 775
    case 27 => 805
    case 28 => 835
    case 29 => 865
    case 30 => 895
    case 31 => 925
    case 32 => 955
    case 33 => 985
    case 34 => 1015
    case 35 => 1045
    case 36 => 1075
    case 37 => 1105
    case 38 => 1135
    case 39 => 1165
    case 40 => 1195
    case 41 => 1225
    case 42 => 1255
    case 43 => 1285
    case 44 => 1315
    case 45 => 1345
    case 46 => 1375
    case 47 => 1405
    case 48 => 1435
    case 49 => 1465
    case 50 => 1495
    case 51 => 1525
    case 52 => 1555
  }

  /** The `timeDisplay` column. */
  function TimeDisplayOf(i: nat): string
    requires i < 53
  {
    match i
    case 0 => "0:00"
    case 1 => "0:25"
    case 2 => "0:55"
    case 3 => "1:25"
    case 4 => "1:55"
    case 5 => "2:25"
    case 6 => "2:55"
    case 7 => "3:25"
    case 8 => "3:55"
    case 9 => "4:25"
    case 10 => "4:55"
    case 11 => "5:25"
    case 12 => "5:55"
    case 13 => "6:25"
    case 14 => "6:55"
    case 15 => "7:25"
    case 16 => "7:55"
    case 17 => "8:25"
    case 18 => "8:55"
    case 19 => "9:25"
    case 20 => "9:55"
    case 21 => "10:25"
    case 22 => "10:55"
    case 23 => "11:25"
    case 24 => "11:55"
    case 25 => "12:25"
    case 26 => "12:55"
    case 27 => "13:25"
    case 28 => "13:55"
    case 29 => "14:25"
    case 30 => "14:55"
    case 31 => "15:25"
    case 32 => "15:55"
    case 33 => "16:25"
    case 34 => "16:55"
    case 35 => "17:25"
    case 36 => "17:55"
    case 37 => "18:25"
    case 38 => "18:55"
    case 39 => "19:25"
    case 40 => "19:55"
    case 41 => "20:25"
    case 42 => "20:55"
    case 43 => "21:25"
    case 44 => "21:55"
    case 45 => "22:25"
    case 46 => "22:55"
    case 47 => "23:25"
    case 48 => "23:55"
    case 49 => "24:25"
    case 50 => "24:55"
    case 51 => "25:25"
    case 52 => "25:55"
  }

  /** The `text` column. */
  function TextOf(i: nat): string
    requires i < 53
  {
    match i
    case 0 => SegmentText0
    case 1 => SegmentText1
    case 2 => SegmentText2
    case 3 => SegmentText3
    case 4 => SegmentText4
    case 5 => SegmentText5
    case 6 => SegmentText6
    case 7 => SegmentText7
    case 8 => SegmentText8
    case 9 => SegmentText9
    case 10 => SegmentText10
    case 11 => SegmentText11
    case 12 => SegmentText12
    case 13 => SegmentText13
    case 14 => SegmentText14
    case 15 => SegmentText15
    case 16 => SegmentText16
    case 17 => SegmentText17
    case 18 => SegmentText18
    case 19 => SegmentText19
    case 20 => SegmentText20
    case 21 => SegmentText21
    case 22 => SegmentText22
    case 23 => SegmentText23
    case 24 => SegmentText24
    case 25 => SegmentText25
    case 26 => SegmentText26
    case 27 => SegmentText27
    case 28 => SegmentText28
    case 29 => SegmentText29
    case 30 => SegmentText30
    case 31 => SegmentText31
    case 32 => SegmentText32
    case 33 => SegmentText33
    case 34 => SegmentText34
    case 35 => SegmentText35
    case 36 => SegmentText36
    case 37 => SegmentText37
    case 38 => SegmentText38
    case 39 => SegmentText39
    case 40 => SegmentText40
    case 41 => SegmentText41
    case 42 => SegmentText42
    case 43 => SegmentText43
    case 44 => SegmentText44
    case 45 => SegmentText45
    case 46 => SegmentText46
    case 47 => SegmentText47
    case 48 => SegmentText48
    case 49 => SegmentText49
    case 50 => SegmentText50
    case 51 => SegmentText51
    case 52 => SegmentText52
  }

  /** The `topics` column. */
  function TopicsOf(i: nat): seq<string>
    requires i < 53
  {
    match i
    case 0 => ["introduction", "overview", "electrical theory"]
    case 1 => ["electricity basics", "electron flow", "conductors"]
    case 2 => ["voltage", "current", "resistance", "electrical quantities", "volts", "amperes"]
    case 3 => ["resistance", "ohms", "current flow", "electrical components"]
    case 4 => ["ohms law", "voltage calculation", "current calculation", "resistance calculation", "electrical equations"]
    case 5 => ["ohms law", "current calculation", "wire sizing", "circuit protection", "practical examples"]
    case 6 => ["circuit symbols", "electrical diagrams", "resistors", "capacitors", "switches", "schematic reading"]
    case 7 => ["schematic reading", "circuit diagrams", "troubleshooting", "electrical installation"]
    case 8 => ["series circuits", "parallel circuits", "circuit connections", "current flow"]
    case 9 => ["series circuits", "voltage division", "current characteristics", "circuit failure"]
    case 10 => ["parallel circuits", "multiple paths", "voltage characteristics", "current division"]
    case 11 => ["parallel circuits", "residential wiring", "commercial wiring", "circuit reliability"]
    case 12 => ["power calculation", "watts", "electrical energy", "power formulas"]
    case 13 => ["power calculation", "ohms law variations", "circuit capacity", "component ratings"]
    case 14 => ["resistors", "electrical components", "current limiting", "color coding", "resistance values"]
    case 15 => ["capacitors", "energy storage", "motor starting", "power factor correction", "capacitance", "farads"]
    case 16 => ["inductors", "coils", "motors", "transformers", "ballasts", "magnetic field"]
    case 17 => ["diodes", "rectifiers", "protection circuits", "LEDs", "current direction"]
    case 18 => ["switches", "current control", "SPST", "DPDT", "momentary switches", "maintained contact"]
    case 19 => ["circuit protection", "safety", "fuses", "circuit breakers", "overcurrent protection"]
    case 20 => ["GFCI", "electrical shock protection", "current imbalance", "wet locations", "safety requirements"]
    case 21 => ["AFCI", "electrical fire protection", "arcing conditions", "residential requirements"]
    case 22 => ["circuit design", "load calculations", "wire sizing", "circuit protection ratings"]
    case 23 => ["wire sizing", "ampacity", "current carrying capacity", "National Electrical Code", "NEC tables"]
    case 24 => ["voltage drop", "wire runs", "conductor sizing", "equipment performance"]
    case 25 => ["voltage drop calculation", "conductor material", "current", "wire length", "circular mils"]
    case 26 => ["troubleshooting", "visual inspection", "loose connections", "burned components", "damaged wires"]
    case 27 => ["multimeter", "voltage testing", "current measurement", "resistance testing", "lockout tagout", "safety procedures"]
    case 28 => ["resistance measurement", "power isolation", "multimeter safety", "accurate readings"]
    case 29 => ["current measurement", "clamp meter", "circuit testing", "conductor measurement"]
    case 30 => ["continuity testing", "circuit testing", "ohms function", "circuit path"]
    case 31 => ["insulation testing", "megohmmeter", "conductor insulation", "motor testing", "cable testing", "industrial applications"]
    case 32 => ["three phase power", "commercial applications", "industrial applications", "phase relationships"]
    case 33 => ["three phase calculations", "power factor", "three phase power formulas", "electrical calculations"]
    case 34 => ["power factor", "real power", "apparent power", "reactive components", "energy costs"]
    case 35 => ["transformers", "voltage transformation", "electromagnetic induction", "power distribution"]
    case 36 => ["transformer calculations", "turns ratio", "voltage relationships", "current relationships"]
    case 37 => ["motor control", "contactors", "overload relays", "control circuits", "industrial applications"]
    case 38 => ["start stop circuits", "pushbuttons", "holding contacts", "contactor control"]
    case 39 => ["electrical safety", "lockout tagout", "PPE", "circuit testing", "safety procedures"]
    case 40 => ["code compliance", "National Electrical Code", "NEC updates", "local codes", "legal requirements"]
    case 41 => ["circuit installation", "junction boxes", "wire connections", "wire fill ratios", "installation practices"]
    case 42 => ["grounding", "bonding", "fault current", "circuit protection", "electrical safety"]
    case 43 => ["equipment grounding", "grounding conductors", "metal enclosures", "fault protection"]
    case 44 => ["neutral conductors", "grounding conductors", "service entrance", "neutral current", "safety"]
    case 45 => ["energy efficiency", "LED lighting", "high efficiency motors", "smart controls", "energy consumption"]
    case 46 => ["smart systems", "automation", "remote monitoring", "building management", "system integration"]
    case 47 => ["renewable energy", "electric vehicle charging", "energy storage", "new technology", "continuing education"]
    case 48 => ["continuing education", "license renewal", "career growth", "technology updates"]
    case 49 => ["circuit design summary", "electrical theory", "ohms law", "component knowledge", "safety", "code requirements"]
    case 50 => ["safety priority", "proper tools", "continuous learning", "professional development"]
    case 51 => ["practice", "calculations", "skill development", "confidence building"]
    case 52 => ["conclusion", "career advice", "safety reminder", "professional development"]
  }

  /** Row `i` of the segment table. */
  function Row(i: nat): Segment
    requires i < 53
  {
    Segment(TimestampOf(i), TimeDisplayOf(i), TextOf(i), TopicsOf(i))
  }

  const CircuitSegments: seq<Segment> := seq(53, i requires 0 <= i < 53 => Row(i))

  const CircuitDesignTranscript: Transcript :=
    Transcript("kHbXbK7S188", "Complete Guide to Circuit Design for Electricians", 1800, CircuitSegments)

  // ---------------------------------------------------------------- the concept table

  const KeywordMappings: seq<Concept> := [
    Concept("resistance", ["resistance", "resistor", "ohm", "opposition"]),
    Concept("voltage", ["voltage", "volt", "electrical pressure", "potential"]),
    Concept("current", ["current", "amp", "ampere", "electron flow"]),
    Concept("power", ["power", "watt", "energy", "consumption"]),
    Concept("ohms law", ["ohm", "law", "formula", "calculation", "equation"]),
    Concept("series", ["series", "sequence", "end-to-end"]),
    Concept("parallel", ["parallel", "side-by-side", "multiple paths"]),
    Concept("safety", ["safety", "protection", "lockout", "tagout", "ppe"]),
    Concept("troubleshooting", ["troubleshoot", "debug", "fix", "problem", "repair"]),
    Concept("multimeter", ["multimeter", "meter", "measurement", "testing"]),
    Concept("circuit protection", ["breaker", "fuse", "protection", "overcurrent"]),
    Concept("grounding", ["ground", "grounding", "bonding", "safety"]),
    Concept("motor", ["motor", "contactor", "control", "starting"]),
    Concept("transformer", ["transformer", "voltage", "turns ratio"]),
    Concept("three phase", ["three", "phase", "industrial", "commercial"]),
    Concept("wire sizing", ["wire", "size", "ampacity", "conductor"]),
    Concept("voltage drop", ["voltage", "drop", "loss", "distance"])
  ]

  // ---------------------------------------------------------------- data invariants

  /** The start of segment `i`: 0, then 25, then every 30 seconds. */
  function StartOf(i: nat): nat
  {
    if i == 0 then 0 else 30 * i - 5
  }

  /** Row `i` starts at `StartOf(i)`. */
  lemma TimestampsFollowStart()
    ensures forall i :: 0 <= i < 53 ==> TimestampOf(i) == StartOf(i)
  {
  }

  lemma ClockRows0To9()
    ensures forall i :: 0 <= i < 9 ==> TimeDisplayOf(i) == Clock(StartOf(i))
  {
  }

  lemma ClockRows9To18()
    ensures forall i :: 9 <= i < 18 ==> TimeDisplayOf(i) == Clock(StartOf(i))
  {
  }

  lemma ClockRows18To27()
    ensures forall i :: 18 <= i < 27 ==> TimeDisplayOf(i) == Clock(StartOf(i))
  {
  }

  lemma ClockRows27To36()
    ensures forall i :: 27 <= i < 36 ==> TimeDisplayOf(i) == Clock(StartOf(i))
  {
  }

  lemma ClockRows36To45()
    ensures forall i :: 36 <= i < 45 ==> TimeDisplayOf(i) == Clock(StartOf(i))
  {
  }

  lemma ClockRows45To53()
    ensures forall i :: 45 <= i < 53 ==> TimeDisplayOf(i) == Clock(StartOf(i))
  {
  }

  /** Row `i` shows its start time as M:SS. */
  lemma DisplaysFollowStart()
    ensures forall i :: 0 <= i < 53 ==> TimeDisplayOf(i) == FormatTime(StartOf(i))
  {
    ClockRows0To9();
    ClockRows9To18();
    ClockRows18To27();
    ClockRows27To36();
    ClockRows36To45();
    ClockRows45To53();
    forall i | 0 <= i < 53
      ensures TimeDisplayOf(i) == FormatTime(StartOf(i))
    {
      FormatTimeDigits(StartOf(i));
    }
  }

  lemma CircuitParts()
    ensures |CircuitSegments| == 53
    ensures forall i :: 0 <= i < 53 ==> CircuitSegments[i].timestamp == StartOf(i)
  {
    TimestampsFollowStart();
  }

  /** Every `timeDisplay` is the segment's timestamp written as M:SS. */
  lemma CircuitDisplays()
    ensures forall i :: 0 <= i < |CircuitSegments| ==>
      CircuitSegments[i].timeDisplay == FormatTime(CircuitSegments[i].timestamp)
  {
    TimestampsFollowStart();
    DisplaysFollowStart();
  }

  /** Timestamps start at 0, strictly increase and stay below the 1800-second duration. */
  lemma CircuitTimestampsIncrease()
    ensures CircuitSegments[0].timestamp == 0
    ensures forall i, j :: 0 <= i < j < |CircuitSegments| ==>
      CircuitSegments[i].timestamp < CircuitSegments[j].timestamp
    ensures forall i :: 0 <= i < |CircuitSegments| ==>
      CircuitSegments[i].timestamp < CircuitDesignTranscript.duration
  {
    CircuitParts();
  }

  // ---------------------------------------------------------------- query words

  /** A character a regular expression does not take literally. */
  predicate IsRegexMeta(c: char)
  {
    c in "\\^$.|?*+()[]{}"
  }

  /** Text that a regular expression built from it matches literally. */
  predicate LiteralPattern(s: string)
  {
    forall i :: 0 <= i < |s| ==> !IsRegexMeta(s[i])
  }

  predicate IsLongWord(w: string)
  {
    |w| > 2
  }

  /** The query words: the lowercased query split on single spaces, keeping the words
      longer than two characters. */
  function QueryKeywords(queryLower: string): (kws: seq<string>)
    ensures forall i :: 0 <= i < |kws| ==> |kws[i]| > 2 && ' ' !in kws[i]
  {
    SplitPiecesAvoidSeparator(queryLower, ' ');
    Filter(SplitBy(queryLower, " "), IsLongWord)
  }

  // ---------------------------------------------------------------- scoring

  /** `(text.match(new RegExp(kw, 'g')) || []).length` for a literal pattern: the number of
      non-overlapping occurrences found from left to right. */
  function CountOccurrences(text: string, kw: string): (n: nat)
    requires |kw| > 0
    ensures n <= |text|
    decreases |text|
  {
    if |text| < |kw| then 0
    else if kw <= text then 1 + CountOccurrences(text[|kw|..], kw)
    else CountOccurrences(text[1..], kw)
  }

  /** A pattern is counted at least once exactly when the text contains it. */
  lemma {:induction false} CountOccurrencesPositive(text: string, kw: string)
    requires |kw| > 0
    ensures CountOccurrences(text, kw) > 0 <==> Contains(text, kw)
    decreases |text|
  {
    ContainsAt(text, kw);
    if |text| >= |kw| && !(kw <= text) {
      CountOccurrencesPositive(text[1..], kw);
    }
  }

  /** The direct text hits of all query words. */
  function DirectHits(textLower: string, kws: seq<string>): nat
    requires forall i :: 0 <= i < |kws| ==> |kws[i]| > 0
  {
    if kws == [] then 0
    else DirectHits(textLower, kws[..|kws| - 1]) + CountOccurrences(textLower, kws[|kws| - 1])
  }

  function LowerTopics(topics: seq<string>): (r: seq<string>)
    ensures |r| == |topics| && forall i :: 0 <= i < |topics| ==> r[i] == LowerStr(topics[i])
  {
    seq(|topics|, i requires 0 <= i < |topics| => LowerStr(topics[i]))
  }

  /** Some query word and some related word contain one another. */
  predicate ConceptMatch(kws: seq<string>, words: seq<string>)
  {
    exists i, j :: 0 <= i < |kws| && 0 <= j < |words| && (Contains(words[j], kws[i]) || Contains(kws[i], words[j]))
  }

  predicate TopicMatch(topicsLower: seq<string>, words: seq<string>)
  {
    exists t, j :: 0 <= t < |topicsLower| && 0 <= j < |words| && Contains(topicsLower[t], words[j])
  }

  predicate TextMatch(textLower: string, words: seq<string>)
  {
    exists j :: 0 <= j < |words| && Contains(textLower, words[j])
  }

  /** The bonus of one concept: 0.8 for a topic and 0.4 for text mentioning a related
      word, when a query word relates to the concept at all. */
  function ConceptScore(kws: seq<string>, topicsLower: seq<string>, textLower: string, c: Concept): nat
  {
    if ConceptMatch(kws, c.relatedWords) then
      (if TopicMatch(topicsLower, c.relatedWords) then 8 else 0) + (if TextMatch(textLower, c.relatedWords) then 4 else 0)
    else 0
  }

  function ConceptBonus(kws: seq<string>, topicsLower: seq<string>, textLower: string, concepts: seq<Concept>): nat
  {
    if concepts == [] then 0
    else ConceptBonus(kws, topicsLower, textLower, concepts[..|concepts| - 1])
         + ConceptScore(kws, topicsLower, textLower, concepts[|concepts| - 1])
  }

  predicate AnyTopicContains(topicsLower: seq<string>, a: string, b: string)
  {
    exists t :: 0 <= t < |topicsLower| && (Contains(topicsLower[t], a) || Contains(topicsLower[t], b))
  }

  predicate AsksToCalculate(queryLower: string)
  {
    Contains(queryLower, "how to calculate") || Contains(queryLower, "calculate")
  }

  predicate AsksAboutSafety(queryLower: string)
  {
    Contains(queryLower, "safety") || Contains(queryLower, "safe")
  }

  predicate AsksToTroubleshoot(queryLower: string)
  {
    Contains(queryLower, "troubleshoot") || Contains(queryLower, "fix") || Contains(queryLower, "problem")
  }

  /** The three query patterns: 1.0 for a calculation question on text with a formula,
      0.9 for a safety question on a safety topic, 0.9 for a troubleshooting question on a
      troubleshooting topic. */
  function PatternBonus(queryLower: string, textLower: string, topicsLower: seq<string>): nat
  {
    (if AsksToCalculate(queryLower) &&
        (Contains(textLower, "formula") || Contains(textLower, "equals") || Contains(textLower, "calculate"))
     then 10 else 0)
    + (if AsksAboutSafety(queryLower) && AnyTopicContains(topicsLower, "safety", "protection") then 9 else 0)
    + (if AsksToTroubleshoot(queryLower) && AnyTopicContains(topicsLower, "troubleshoot", "testing") then 9 else 0)
  }

  /** The accumulated score of a segment, in tenths. */
  function SegmentScore(kws: seq<string>, queryLower: string, seg: Segment): nat
    requires forall i :: 0 <= i < |kws| ==> |kws[i]| > 0
  {
    var textLower := LowerStr(seg.text);
    var topicsLower := LowerTopics(seg.topics);
    3 * DirectHits(textLower, kws) + 5 * TopicMentions(seg.topics, kws)
      + ConceptBonus(kws, topicsLower, textLower, KeywordMappings) + PatternBonus(queryLower, textLower, topicsLower)
  }

  /** The direct-hit loop: three tenths per occurrence of each query word in the text. */
  method ScoreDirectHits(textLower: string, keywords: seq<string>) returns (score: nat)
    requires forall i :: 0 <= i < |keywords| ==> |keywords[i]| > 0
    ensures score == 3 * DirectHits(textLower, keywords)
  {
    score := 0;
    var i := 0;
    while i < |keywords|
      invariant 0 <= i <= |keywords|
      invariant score == 3 * DirectHits(textLower, keywords[..i])
    {
      assert keywords[..i + 1][..i] == keywords[..i];
      score := score + 3 * CountOccurrences(textLower, keywords[i]);
      i := i + 1;
    }
    assert keywords[..i] == keywords;
  }

  /** The topic loop: five tenths for each (topic, query word) pair where the lowercased
      topic contains the word. */
  method ScoreTopics(topics: seq<string>, keywords: seq<string>) returns (score: nat)
    ensures score == 5 * TopicMentions(topics, keywords)
  {
    score := 0;
    var topicsLower := LowerTopics(topics);
    var t := 0;
    while t < |topicsLower|
      invariant 0 <= t <= |topicsLower|
      invariant score == 5 * TopicMentions(topics[..t], keywords)
    {
      var j := 0;
      while j < |keywords|
        invariant 0 <= j <= |keywords|
        invariant score == 5 * TopicMentions(topics[..t], keywords)
                           + 5 * CountMentions(topicsLower[t], keywords[..j])
      {
        assert keywords[..j + 1][..j] == keywords[..j];
        if Contains(topicsLower[t], keywords[j]) {
          score := score + 5;
        }
        j := j + 1;
      }
      assert keywords[..j] == keywords;
      assert topics[..t + 1][..t] == topics[..t];
      t := t + 1;
    }
    assert topics[..t] == topics;
  }

  /** The concept loop over a concept table. */
  method ScoreConcepts(keywords: seq<string>, topicsLower: seq<string>, textLower: string, concepts: seq<Concept>)
    returns (score: nat)
    ensures score == ConceptBonus(keywords, topicsLower, textLower, concepts)
  {
    score := 0;
    var c := 0;
    while c < |concepts|
      invariant 0 <= c <= |concepts|
      invariant score == ConceptBonus(keywords, topicsLower, textLower, concepts[..c])
    {
      assert concepts[..c + 1][..c] == concepts[..c];
      var related := concepts[c].relatedWords;
      if ConceptMatch(keywords, related) {
        if TopicMatch(topicsLower, related) {
          score := score + 8;
        }
        if TextMatch(textLower, related) {
          score := score + 4;
        }
      }
      c := c + 1;
    }
    assert concepts[..c] == concepts;
  }

  /** The score of one segment, accumulated as the loops over the query words, the
      topics and the concept table go, followed by the three query patterns. */
  method ScoreSegment(keywords: seq<string>, queryLower: string, segment: Segment) returns (score: nat)
    requires forall i :: 0 <= i < |keywords| ==> |keywords[i]| > 0
    ensures score == SegmentScore(keywords, queryLower, segment)
  {
    var textLower := LowerStr(segment.text);
    var topicsLower := LowerTopics(segment.topics);
    var direct := ScoreDirectHits(textLower, keywords);
    var topical := ScoreTopics(segment.topics, keywords);
    var conceptual := ScoreConcepts(keywords, topicsLower, textLower, KeywordMappings);
    score := direct + topical + conceptual;
    if AsksToCalculate(queryLower) {
      if Contains(textLower, "formula") || Contains(textLower, "equals") || Contains(textLower, "calculate") {
        score := score + 10;
      }
    }
    if AsksAboutSafety(queryLower) {
      if AnyTopicContains(topicsLower, "safety", "protection") {
        score := score + 9;
      }
    }
    if AsksToTroubleshoot(queryLower) {
      if AnyTopicContains(topicsLower, "troubleshoot", "testing") {
        score := score + 9;
      }
    }
  }

  // ---------------------------------------------------------------- ranking

  function ScoreAll(kws: seq<string>, queryLower: string, segments: seq<Segment>): (r: seq<ScoredSegment>)
    requires forall i :: 0 <= i < |kws| ==> |kws[i]| > 0
    ensures |r| == |segments|
    ensures forall i :: 0 <= i < |segments| ==> r[i] == ScoredSegment(segments[i], SegmentScore(kws, queryLower, segments[i]))
  {
    seq(|segments|, i requires 0 <= i < |segments| => ScoredSegment(segments[i], SegmentScore(kws, queryLower, segments[i])))
  }

  predicate Scores(s: ScoredSegment)
  {
    s.score > 0
  }

  function ScoreRank(s: ScoredSegment): Rank
  {
    Rank(s.score, 0)
  }

  /** `Math.min(score / 3, 1)` with the score in tenths. */
  function Relevance(score: nat): (r: real)
    ensures 0.0 <= r <= 1.0
    ensures score > 0 ==> r > 0.0
    ensures score <= 30 ==> r == score as real / 30.0
  {
    if score as real / 30.0 < 1.0 then score as real / 30.0 else 1.0
  }

  lemma RelevanceMonotone(a: nat, b: nat)
    requires a >= b
    ensures Relevance(a) >= Relevance(b)
  {
    assert a as real / 30.0 >= b as real / 30.0;
  }

  /** The preview: the text itself up to 100 characters, otherwise its first 97 followed by
      "...". */
  function Preview(text: string): (p: string)
    ensures |p| <= 100
    ensures |text| <= 100 ==> p == text
    ensures |text| > 100 ==> |p| == 100 && p[..97] == text[..97] && p[97..] == "..."
  {
    if |text| > 100 then text[..97] + "..." else text
  }

  function ToRelevant(s: ScoredSegment): RelevantTimestamp
  {
    RelevantTimestamp(s.segment.timestamp, s.segment.timeDisplay, Relevance(s.score), Preview(s.segment.text))
  }

  /** The segments that score, highest first, ties in transcript order. */
  function RankedSegments(segments: seq<Segment>, query: string): seq<ScoredSegment>
  {
    var queryLower := LowerStr(query);
    SortDesc(Filter(ScoreAll(QueryKeywords(queryLower), queryLower, segments), Scores), ScoreRank)
  }

  /** `findRelevantTimestamps` over the given segments. */
  function RelevantTimestamps(segments: seq<Segment>, query: string): seq<RelevantTimestamp>
  {
    Map(Prefix(RankedSegments(segments, query), 8), ToRelevant)
  }

  /** `findRelevantTimestamps`: scores each segment, keeps those that score, sorts them,
      keeps the best eight and builds their previews. */
  method FindRelevantTimestamps(segments: seq<Segment>, query: string) returns (results: seq<RelevantTimestamp>)
    requires LiteralPattern(query)
    ensures results == RelevantTimestamps(segments, query)
  {
    var queryLower := LowerStr(query);
    var keywords := QueryKeywords(queryLower);
    var relevantSegments: seq<ScoredSegment> := [];
    var i := 0;
    while i < |segments|
      invariant 0 <= i <= |segments|
      invariant relevantSegments == Filter(ScoreAll(keywords, queryLower, segments[..i]), Scores)
    {
      var score := ScoreSegment(keywords, queryLower, segments[i]);
      var entry := ScoredSegment(segments[i], score);
      assert ScoreAll(keywords, queryLower, segments[..i + 1]) == ScoreAll(keywords, queryLower, segments[..i]) + [entry];
      FilterAppend(ScoreAll(keywords, queryLower, segments[..i]), [entry], Scores);
      if score > 0 {
        relevantSegments := relevantSegments + [entry];
      }
      i := i + 1;
    }
    assert segments[..i] == segments;
    var sorted := SortDesc(relevantSegments, ScoreRank);
    results := Map(Prefix(sorted, 8), ToRelevant);
  }

  /** `searchTranscript`, without its logging. */
  method SearchTranscript(userQuestion: string) returns (results: seq<RelevantTimestamp>)
    requires LiteralPattern(userQuestion)
    ensures results == RelevantTimestamps(CircuitSegments, userQuestion)
  {
    results := FindRelevantTimestamps(CircuitSegments, userQuestion);
  }

  // ---------------------------------------------------------------- properties of the search

  /** The score `findRelevantTimestamps` gives one segment for a query. */
  function QueryScore(seg: Segment, query: string): nat
  {
    var queryLower := LowerStr(query);
    SegmentScore(QueryKeywords(queryLower), queryLower, seg)
  }

  /** Every ranked entry is a segment that scores, with its own score. */
  lemma RankedAreScoring(segments: seq<Segment>, query: string)
    ensures var ranked := RankedSegments(segments, query);
      forall i :: 0 <= i < |ranked| ==>
        exists k :: 0 <= k < |segments| && QueryScore(segments[k], query) > 0 &&
          ranked[i] == ScoredSegment(segments[k], QueryScore(segments[k], query))
  {
    var queryLower := LowerStr(query);
    var all := ScoreAll(QueryKeywords(queryLower), queryLower, segments);
    var scoring := Filter(all, Scores);
    var ranked := RankedSegments(segments, query);
    SortDescSorted(scoring, ScoreRank);
    forall i | 0 <= i < |ranked|
      ensures exists k :: (0 <= k < |segments| && QueryScore(segments[k], query) > 0 &&
                           ranked[i] == ScoredSegment(segments[k], QueryScore(segments[k], query)))
    {
      assert ranked[i] in multiset(ranked);
      assert ranked[i] in scoring;
      var m :| 0 <= m < |scoring| && scoring[m] == ranked[i];
      assert Scores(scoring[m]) && scoring[m] in all;
      var k :| 0 <= k < |all| && all[k] == scoring[m];
      assert ranked[i] == ScoredSegment(segments[k], QueryScore(segments[k], query));
    }
  }

  /** Every segment that scores is ranked, with its own score. */
  lemma ScoringAreRanked(segments: seq<Segment>, query: string)
    ensures var ranked := RankedSegments(segments, query);
      forall k :: 0 <= k < |segments| && QueryScore(segments[k], query) > 0 ==>
        ScoredSegment(segments[k], QueryScore(segments[k], query)) in ranked
  {
    var queryLower := LowerStr(query);
    var all := ScoreAll(QueryKeywords(queryLower), queryLower, segments);
    var scoring := Filter(all, Scores);
    var ranked := RankedSegments(segments, query);
    SortDescSorted(scoring, ScoreRank);
    forall k | 0 <= k < |segments| && QueryScore(segments[k], query) > 0
      ensures ScoredSegment(segments[k], QueryScore(segments[k], query)) in ranked
    {
      assert Scores(all[k]);
      assert all[k] in scoring;
      assert all[k] in multiset(scoring);
      assert all[k] in multiset(ranked);
    }
  }

  /** The ranking holds exactly the segments that score, each with its own score, in
      non-increasing order of score. */
  lemma RankedSegmentsAreTheScoringOnes(segments: seq<Segment>, query: string)
    ensures var ranked := RankedSegments(segments, query);
      SortedBy(ranked, ScoreRank) &&
      (forall i :: 0 <= i < |ranked| ==>
        exists k :: 0 <= k < |segments| && QueryScore(segments[k], query) > 0 &&
          ranked[i] == ScoredSegment(segments[k], QueryScore(segments[k], query))) &&
      (forall k :: 0 <= k < |segments| && QueryScore(segments[k], query) > 0 ==>
        ScoredSegment(segments[k], QueryScore(segments[k], query)) in ranked)
  {
    var queryLower := LowerStr(query);
    SortDescSorted(Filter(ScoreAll(QueryKeywords(queryLower), queryLower, segments), Scores), ScoreRank);
    RankedAreScoring(segments, query);
    ScoringAreRanked(segments, query);
  }

  /** At most eight results, relevance in (0, 1] and non-increasing, and each result is a
      scoring segment's timestamp, display, relevance and preview. */
  lemma RelevantShape(segments: seq<Segment>, query: string)
    ensures var r := RelevantTimestamps(segments, query);
      |r| <= 8 &&
      (forall i :: 0 <= i < |r| ==> 0.0 < r[i].relevance <= 1.0) &&
      (forall i, j :: 0 <= i < j < |r| ==> r[i].relevance >= r[j].relevance) &&
      (forall i :: 0 <= i < |r| ==>
        exists k :: 0 <= k < |segments| && QueryScore(segments[k], query) > 0 &&
          r[i] == RelevantTimestamp(segments[k].timestamp, segments[k].timeDisplay,
                                    Relevance(QueryScore(segments[k], query)), Preview(segments[k].text)))
  {
    var ranked := RankedSegments(segments, query);
    var top := Prefix(ranked, 8);
    var r := RelevantTimestamps(segments, query);
    RankedSegmentsAreTheScoringOnes(segments, query);
    forall i | 0 <= i < |r|
      ensures 0.0 < r[i].relevance <= 1.0
      ensures exists k :: (0 <= k < |segments| && QueryScore(segments[k], query) > 0 &&
                           r[i] == RelevantTimestamp(segments[k].timestamp, segments[k].timeDisplay,
                                                     Relevance(QueryScore(segments[k], query)),
                                                     Preview(segments[k].text)))
    {
      assert r[i] == ToRelevant(top[i]) && top[i] == ranked[i];
      var k :| 0 <= k < |segments| && QueryScore(segments[k], query) > 0 &&
        ranked[i] == ScoredSegment(segments[k], QueryScore(segments[k], query));
    }
    forall i, j | 0 <= i < j < |r|
      ensures r[i].relevance >= r[j].relevance
    {
      assert top[i] == ranked[i] && top[j] == ranked[j];
      assert AtLeast(ScoreRank(ranked[i]), ScoreRank(ranked[j]));
      RelevanceMonotone(ranked[i].score, ranked[j].score);
    }
  }

  /** A scoring segment left out of the results means that all eight places are taken, by
      segments that score at least as much. */
  lemma OnlyTheBestEight(segments: seq<Segment>, query: string, k: nat)
    requires k < |segments| && QueryScore(segments[k], query) > 0
    requires ToRelevant(ScoredSegment(segments[k], QueryScore(segments[k], query)))
             !in RelevantTimestamps(segments, query)
    ensures |RelevantTimestamps(segments, query)| == 8
    ensures forall i :: 0 <= i < 8 ==> RankedSegments(segments, query)[i].score >= QueryScore(segments[k], query)
    ensures forall i :: 0 <= i < 8 ==>
      RelevantTimestamps(segments, query)[i].relevance >= Relevance(QueryScore(segments[k], query))
  {
    var e := ScoredSegment(segments[k], QueryScore(segments[k], query));
    var ranked := RankedSegments(segments, query);
    var top := Prefix(ranked, 8);
    var r := RelevantTimestamps(segments, query);
    RankedSegmentsAreTheScoringOnes(segments, query);
    forall i | 0 <= i < |top|
      ensures ranked[i] != e
    {
      assert r[i] == ToRelevant(top[i]) && top[i] == ranked[i];
    }
    var m :| 0 <= m < |ranked| && ranked[m] == e;
    assert |top| <= m < |ranked|;
    forall i | 0 <= i < 8
      ensures ranked[i].score >= e.score
      ensures r[i].relevance >= Relevance(e.score)
    {
      assert AtLeast(ScoreRank(ranked[i]), ScoreRank(ranked[m]));
      assert r[i] == ToRelevant(top[i]) && top[i] == ranked[i];
      RelevanceMonotone(ranked[i].score, e.score);
    }
  }

  /** Segments with distinct timestamps give results with distinct timestamps. */
  lemma RelevantDistinctTimestamps(segments: seq<Segment>, query: string)
    requires forall i, j :: 0 <= i < j < |segments| ==> segments[i].timestamp != segments[j].timestamp
    ensures var r := RelevantTimestamps(segments, query);
      forall i, j :: 0 <= i < j < |r| ==> r[i].timestamp != r[j].timestamp
  {
    var queryLower := LowerStr(query);
    var all := ScoreAll(QueryKeywords(queryLower), queryLower, segments);
    var ranked := RankedSegments(segments, query);
    var top := Prefix(ranked, 8);
    var r := RelevantTimestamps(segments, query);
    assert Distinct(all) by {
      forall i, j | 0 <= i < j < |all|
        ensures all[i] != all[j]
      {
        assert all[i].segment == segments[i] && all[j].segment == segments[j];
      }
    }
    FilterDistinct(all, Scores);
    DistinctPermutation(Filter(all, Scores), ranked);
    RankedSegmentsAreTheScoringOnes(segments, query);
    forall i, j | 0 <= i < j < |r|
      ensures r[i].timestamp != r[j].timestamp
    {
      assert r[i] == ToRelevant(top[i]) && top[i] == ranked[i];
      assert r[j] == ToRelevant(top[j]) && top[j] == ranked[j];
      var a :| 0 <= a < |segments| && QueryScore(segments[a], query) > 0 &&
        ranked[i] == ScoredSegment(segments[a], QueryScore(segments[a], query));
      var b :| 0 <= b < |segments| && QueryScore(segments[b], query) > 0 &&
        ranked[j] == ScoredSegment(segments[b], QueryScore(segments[b], query));
      assert a != b;
    }
  }

  /** On the circuit-design transcript every search result has its own timestamp. */
  lemma SearchResultsDistinct(query: string)
    ensures var r := RelevantTimestamps(CircuitSegments, query);
      forall i, j :: 0 <= i < j < |r| ==> r[i].timestamp != r[j].timestamp
  {
    CircuitTimestampsIncrease();
    RelevantDistinctTimestamps(CircuitSegments, query);
  }

  /** A word of more than two characters without a space lies inside one piece of the
      query, so a query whose pieces are all short contains none. */
  lemma NoLongWordIn(queryLower: string, w: string)
    requires forall i :: 0 <= i < |SplitBy(queryLower, " ")| ==> |SplitBy(queryLower, " ")[i]| <= 2
    requires |w| > 2 && ' ' !in w
    ensures !Contains(queryLower, w)
  {
    if Contains(queryLower, w) {
      NeedleWithinPiece(queryLower, ' ', w);
    }
  }

  lemma NoEarlierConcepts(topicsLower: seq<string>, textLower: string, concepts: seq<Concept>)
    ensures ConceptBonus([], topicsLower, textLower, concepts) == 0
  {
  }

  lemma {:induction false} NoTopicMentions(topics: seq<string>)
    ensures TopicMentions(topics, []) == 0
    decreases |topics|
  {
    if topics != [] {
      NoTopicMentions(topics[..|topics| - 1]);
    }
  }

  /** A query of one- and two-letter words finds nothing: no keywords survive and none of
      the pattern words can occur in it. */
  lemma ShortWordsFindNothing(segments: seq<Segment>, query: string)
    requires forall i :: 0 <= i < |SplitBy(LowerStr(query), " ")| ==> |SplitBy(LowerStr(query), " ")[i]| <= 2
    ensures RelevantTimestamps(segments, query) == []
  {
    var queryLower := LowerStr(query);
    FilterNone(SplitBy(queryLower, " "), IsLongWord);
    assert QueryKeywords(queryLower) == [];
    NoLongWordIn(queryLower, "calculate");
    if Contains(queryLower, "how to calculate") {
      assert "how to calculate"[7..] == "calculate";
      ContainsFromAt("how to calculate", "calculate", 7);
      ContainsTrans(queryLower, "how to calculate", "calculate");
    }
    NoLongWordIn(queryLower, "safety");
    NoLongWordIn(queryLower, "safe");
    NoLongWordIn(queryLower, "troubleshoot");
    NoLongWordIn(queryLower, "fix");
    NoLongWordIn(queryLower, "problem");
    var all := ScoreAll([], queryLower, segments);
    forall i | 0 <= i < |all|
      ensures !Scores(all[i])
    {
      NoTopicMentions(segments[i].topics);
      NoEarlierConcepts(LowerTopics(segments[i].topics), LowerStr(segments[i].text), KeywordMappings);
    }
    FilterNone(all, Scores);
  }
}

/**
 * generateDoc: the quotation document as an ordered sequence of
 * paragraphs, each a heading, a line of text or a block of text runs.
 * Styling, spacing, heading levels and the newlines that only lay out
 * the text (a newline before a heading or the total, or after each run)
 * are not represented.
 */
module QuoteDocument {

  /** What the export hands to the document generator. */
  datatype ExportData = ExportData(
    clientName: string,
    formation: string,
    mode: string,
    sessions: nat,
    travelZone: string,
    travelCost: real,
    tjm: real,
    totalHT: real)

  /** A value interpolated into a line; `Euros` is shown followed by "€ HT". */
  datatype Value = Text(s: string) | Count(n: nat) | Euros(amount: real)

  /** A text run inside a paragraph. */
  datatype Line =
    | Heading(text: string)
    | Break
    | Field(name: string, value: Value)
    | Bullet(text: string)

  datatype Paragraph =
    | Title(text: string)
    | Plain(text: string)
    | Subtitle(text: string)
    | Block(lines: seq<Line>)

  type Document = seq<Paragraph>

  const OnSiteLabel: string := "Présentiel"

  const PrepCondition: string := "Toutes les formations comprennent ½ journée de préparation obligatoire."
  const LearnerCapCondition: string := "Une session de formation ne peut pas dépasser 10 apprenants."
  const LyonCondition: string := "Le point de départ est toujours Lyon."
  const ForfaitCondition: string := "Les forfaits couvrent le temps de déplacement, l'hébergement et les repas."

  /** The "Détails de la formation" block; travel lines only on site. */
  function Details(data: ExportData): seq<Line>
  {
    DetailsHead(data) + TravelLines(data) + [ Field("TJM appliqué", Euros(data.tjm)) ]
  }

  function DetailsHead(data: ExportData): seq<Line>
  {
    [ Heading("Détails de la formation"),
      Break,
      Field("Formation", Text(data.formation)),
      Field("Mode", Text(data.mode)),
      Field("Nombre de sessions", Count(data.sessions)) ]
  }

  function TravelLines(data: ExportData): seq<Line>
  {
    if data.mode == OnSiteLabel then
      [ Field("Zone de déplacement", Text(data.travelZone)),
        Field("Frais de déplacement", Euros(data.travelCost)) ]
    else []
  }

  /** The conditions list; the Lyon and package conditions only on site. */
  function Conditions(data: ExportData): seq<Line>
  {
    [ Bullet(PrepCondition), Bullet(LearnerCapCondition) ]
    + (if data.mode == OnSiteLabel then [ Bullet(LyonCondition), Bullet(ForfaitCondition) ] else [])
  }

  function GenerateDoc(data: ExportData): Document
  {
    Layout(data.clientName, Details(data), Conditions(data), data.totalHT)
  }

  /** The page skeleton: title, client, details, conditions, total. */
  function Layout(clientName: string, details: seq<Line>, conditions: seq<Line>, totalHT: real): Document
  {
    [ Title("Devis Formation NowBrains"),
      Plain("Client : " + clientName),
      Block(details),
      Subtitle("Conditions"),
      Block(conditions),
      Block([ Field("Total HT", Euros(totalHT)) ]) ]
  }

  // Views of a document used to state what it contains.

  /** The labels of the fields of a block, in order. */
  function Labels(lines: seq<Line>): seq<string>
  {
    if lines == [] then []
    else (if lines[0].Field? then [lines[0].name] else []) + Labels(lines[1..])
  }

  /** The fields of a block as (label, shown value) pairs, in order. */
  function Fields(lines: seq<Line>): seq<(string, Value)>
  {
    if lines == [] then []
    else (if lines[0].Field? then [(lines[0].name, lines[0].value)] else []) + Fields(lines[1..])
  }

  /** The amounts shown in a block, in order. */
  function LineAmounts(lines: seq<Line>): seq<real>
  {
    if lines == [] then []
    else (if lines[0].Field? && lines[0].value.Euros? then [lines[0].value.amount] else [])
         + LineAmounts(lines[1..])
  }

  function ParagraphAmounts(p: Paragraph): seq<real>
  {
    if p.Block? then LineAmounts(p.lines) else []
  }

  function ParagraphBullets(p: Paragraph): seq<string>
  {
    if p.Block? then BlockBullets(p.lines) else []
  }

  /** The amounts shown anywhere in a document, in order. */
  function Amounts(doc: Document): seq<real>
  {
    if doc == [] then [] else Amounts(doc[..|doc| - 1]) + ParagraphAmounts(doc[|doc| - 1])
  }

  /** The bullet texts of a document, in order. */
  function Bullets(doc: Document): seq<string>
  {
    if doc == [] then [] else Bullets(doc[..|doc| - 1]) + ParagraphBullets(doc[|doc| - 1])
  }

  function BlockBullets(lines: seq<Line>): seq<string>
  {
    if lines == [] then []
    else (if lines[0].Bullet? then [lines[0].text] else []) + BlockBullets(lines[1..])
  }

  /** Some paragraph of the document holds a field with this name. */
  predicate HasField(doc: Document, name: string)
  {
    exists i, j :: 0 <= i < |doc| && doc[i].Block? && 0 <= j < |doc[i].lines|
      && doc[i].lines[j].Field? && doc[i].lines[j].name == name
  }

  // Lemmas about GenerateDoc.

  lemma {:induction false} LabelsAppend(a: seq<Line>, b: seq<Line>)
    ensures Labels(a + b) == Labels(a) + Labels(b)
  {
    if a == [] {
      assert a + b == b;
    } else {
      var s := a + b;
      assert s[0] == a[0] && s[1..] == a[1..] + b;
      LabelsAppend(a[1..], b);
    }
  }

  lemma {:induction false} FieldsAppend(a: seq<Line>, b: seq<Line>)
    ensures Fields(a + b) == Fields(a) + Fields(b)
  {
    if a == [] {
      assert a + b == b;
    } else {
      var s := a + b;
      assert s[0] == a[0] && s[1..] == a[1..] + b;
      FieldsAppend(a[1..], b);
    }
  }

  lemma {:induction false} LineAmountsAppend(a: seq<Line>, b: seq<Line>)
    ensures LineAmounts(a + b) == LineAmounts(a) + LineAmounts(b)
  {
    if a == [] {
      assert a + b == b;
    } else {
      var s := a + b;
      assert s[0] == a[0] && s[1..] == a[1..] + b;
      LineAmountsAppend(a[1..], b);
    }
  }

  lemma {:induction false} BlockBulletsAppend(a: seq<Line>, b: seq<Line>)
    ensures BlockBullets(a + b) == BlockBullets(a) + BlockBullets(b)
  {
    if a == [] {
      assert a + b == b;
    } else {
      var s := a + b;
      assert s[0] == a[0] && s[1..] == a[1..] + b;
      BlockBulletsAppend(a[1..], b);
    }
  }

  /** The views of a single line. */
  lemma LineViews(x: Line)
    ensures Labels([x]) == (if x.Field? then [x.name] else [])
    ensures Fields([x]) == (if x.Field? then [(x.name, x.value)] else [])
    ensures LineAmounts([x]) == (if x.Field? && x.value.Euros? then [x.value.amount] else [])
    ensures BlockBullets([x]) == (if x.Bullet? then [x.text] else [])
  {
    assert [x][1..] == [];
  }

  lemma HeadViews(data: ExportData)
    ensures Labels(DetailsHead(data)) == ["Formation", "Mode", "Nombre de sessions"]
    ensures Fields(DetailsHead(data)) ==
      [("Formation", Text(data.formation)), ("Mode", Text(data.mode)), ("Nombre de sessions", Count(data.sessions))]
    ensures LineAmounts(DetailsHead(data)) == [] && BlockBullets(DetailsHead(data)) == []
  {
    var s := DetailsHead(data);
    LineViews(s[4]);
    assert s[4..] == [s[4]];
    assert Labels(s[3..]) == ["Mode", "Nombre de sessions"];
    assert Fields(s[3..]) == [("Mode", Text(data.mode)), ("Nombre de sessions", Count(data.sessions))];
    assert LineAmounts(s[3..]) == [] && BlockBullets(s[3..]) == [];
    assert Labels(s[2..]) == ["Formation", "Mode", "Nombre de sessions"];
    assert Fields(s[2..]) == [("Formation", Text(data.formation))] + Fields(s[3..]);
    assert LineAmounts(s[2..]) == [] && BlockBullets(s[2..]) == [];
    assert Labels(s[1..]) == Labels(s[2..]) && Fields(s[1..]) == Fields(s[2..]);
    assert LineAmounts(s[1..]) == [] && BlockBullets(s[1..]) == [];
  }

  lemma TravelViews(data: ExportData)
    ensures Labels(TravelLines(data)) ==
      if data.mode == OnSiteLabel then ["Zone de déplacement", "Frais de déplacement"] else []
    ensures Fields(TravelLines(data)) ==
      if data.mode == OnSiteLabel then
        [("Zone de déplacement", Text(data.travelZone)), ("Frais de déplacement", Euros(data.travelCost))]
      else []
    ensures LineAmounts(TravelLines(data)) == if data.mode == OnSiteLabel then [data.travelCost] else []
    ensures BlockBullets(TravelLines(data)) == []
  {
    var s := TravelLines(data);
    if data.mode == OnSiteLabel {
      LineViews(s[1]);
      assert s[1..] == [s[1]];
    }
  }

  /** The views of the details block: fields in order, amounts, no bullets. */
  lemma DetailsViews(data: ExportData)
    ensures Labels(Details(data)) ==
      ["Formation", "Mode", "Nombre de sessions"]
      + (if data.mode == OnSiteLabel then ["Zone de déplacement", "Frais de déplacement"] else [])
      + ["TJM appliqué"]
    ensures Fields(Details(data)) ==
      [("Formation", Text(data.formation)), ("Mode", Text(data.mode)), ("Nombre de sessions", Count(data.sessions))]
      + (if data.mode == OnSiteLabel then
           [("Zone de déplacement", Text(data.travelZone)), ("Frais de déplacement", Euros(data.travelCost))]
         else [])
      + [("TJM appliqué", Euros(data.tjm))]
    ensures LineAmounts(Details(data)) ==
      (if data.mode == OnSiteLabel then [data.travelCost] else []) + [data.tjm]
    ensures BlockBullets(Details(data)) == []
  {
    var head, travel, tail := DetailsHead(data), TravelLines(data), [ Field("TJM appliqué", Euros(data.tjm)) ];
    HeadViews(data);
    TravelViews(data);
    LineViews(tail[0]);
    LabelsAppend(head + travel, tail);
    LabelsAppend(head, travel);
    FieldsAppend(head + travel, tail);
    FieldsAppend(head, travel);
    LineAmountsAppend(head + travel, tail);
    LineAmountsAppend(head, travel);
    BlockBulletsAppend(head + travel, tail);
    BlockBulletsAppend(head, travel);
  }

  /** The views of the conditions list: its bullets, no fields, no amounts. */
  lemma ConditionsViews(data: ExportData)
    ensures BlockBullets(Conditions(data)) ==
      [PrepCondition, LearnerCapCondition]
      + (if data.mode == OnSiteLabel then [LyonCondition, ForfaitCondition] else [])
    ensures Labels(Conditions(data)) == [] && LineAmounts(Conditions(data)) == []
  {
    var s := Conditions(data);
    var n := |s|;
    assert Labels(s[n..]) == [] && LineAmounts(s[n..]) == [] && BlockBullets(s[n..]) == [];
    if data.mode == OnSiteLabel {
      assert n == 4;
      assert BlockBullets(s[3..]) == [ForfaitCondition] && Labels(s[3..]) == [] && LineAmounts(s[3..]) == [];
      assert BlockBullets(s[2..]) == [LyonCondition, ForfaitCondition] && Labels(s[2..]) == [] && LineAmounts(s[2..]) == [];
    } else {
      assert n == 2;
    }
    assert Labels(s[1..]) == [] && LineAmounts(s[1..]) == [];
    assert BlockBullets(s[1..]) == [LearnerCapCondition] + BlockBullets(s[2..]);
  }

  /** The views of a six-paragraph document, paragraph by paragraph. */
  lemma SixParagraphs(p0: Paragraph, p1: Paragraph, p2: Paragraph, p3: Paragraph, p4: Paragraph, p5: Paragraph)
    ensures Amounts([p0, p1, p2, p3, p4, p5]) ==
      ParagraphAmounts(p0) + ParagraphAmounts(p1) + ParagraphAmounts(p2)
      + ParagraphAmounts(p3) + ParagraphAmounts(p4) + ParagraphAmounts(p5)
    ensures Bullets([p0, p1, p2, p3, p4, p5]) ==
      ParagraphBullets(p0) + ParagraphBullets(p1) + ParagraphBullets(p2)
      + ParagraphBullets(p3) + ParagraphBullets(p4) + ParagraphBullets(p5)
  {
    var d1: Document := [p0];
    var d2 := [p0, p1];
    var d3 := [p0, p1, p2];
    var d4 := [p0, p1, p2, p3];
    var d5 := [p0, p1, p2, p3, p4];
    var d6 := [p0, p1, p2, p3, p4, p5];
    assert d1[..0] == [];
    assert d2[..1] == d1;
    assert d3[..2] == d2;
    assert d4[..3] == d3;
    assert d5[..4] == d4;
    assert d6[..5] == d5;
    assert Amounts(d1) == ParagraphAmounts(p0) && Bullets(d1) == ParagraphBullets(p0);
    assert Amounts(d2) == Amounts(d1) + ParagraphAmounts(p1) && Bullets(d2) == Bullets(d1) + ParagraphBullets(p1);
    assert Amounts(d3) == Amounts(d2) + ParagraphAmounts(p2) && Bullets(d3) == Bullets(d2) + ParagraphBullets(p2);
    assert Amounts(d4) == Amounts(d3) + ParagraphAmounts(p3) && Bullets(d4) == Bullets(d3) + ParagraphBullets(p3);
    assert Amounts(d5) == Amounts(d4) + ParagraphAmounts(p4) && Bullets(d5) == Bullets(d4) + ParagraphBullets(p4);
  }

  /** The amounts and bullets of a laid-out page come from its blocks. */
  lemma LayoutViews(clientName: string, details: seq<Line>, conditions: seq<Line>, totalHT: real)
    ensures Amounts(Layout(clientName, details, conditions, totalHT)) ==
      LineAmounts(details) + LineAmounts(conditions) + [totalHT]
    ensures Bullets(Layout(clientName, details, conditions, totalHT)) ==
      BlockBullets(details) + BlockBullets(conditions)
  {
    var total := Field("Total HT", Euros(totalHT));
    var p0, p1, p3 := Title("Devis Formation NowBrains"), Plain("Client : " + clientName), Subtitle("Conditions");
    SixParagraphs(p0, p1, Block(details), p3, Block(conditions), Block([total]));
    LineViews(total);
    var a2 := ParagraphAmounts(p0) + ParagraphAmounts(p1) + LineAmounts(details);
    assert a2 == LineAmounts(details);
    var a3 := a2 + ParagraphAmounts(p3);
    assert a3 == LineAmounts(details);
    var b2 := ParagraphBullets(p0) + ParagraphBullets(p1) + BlockBullets(details);
    assert b2 == BlockBullets(details);
    var b3 := b2 + ParagraphBullets(p3);
    assert b3 == BlockBullets(details);
    assert BlockBullets([total]) == [];
    assert b3 + BlockBullets(conditions) + [] == BlockBullets(details) + BlockBullets(conditions);
  }

  /**
   * The paragraphs come in a fixed order: title, client, details,
   * "Conditions" heading, conditions list, total excluding tax.
   */
  lemma DocumentOrder(data: ExportData)
    ensures var doc := GenerateDoc(data);
      && |doc| == 6
      && doc[0] == Title("Devis Formation NowBrains")
      && doc[1] == Plain("Client : " + data.clientName)
      && doc[2].Block? && doc[2].lines[0] == Heading("Détails de la formation")
      && doc[3] == Subtitle("Conditions")
      && doc[4].Block? && doc[4].lines[0] == Bullet(PrepCondition)
      && doc[5] == Block([ Field("Total HT", Euros(data.totalHT)) ])
  {
  }

  /**
   * The details block lists Formation, Mode, Nombre de sessions, then on
   * site only the zone and travel cost, then the daily rate; each field
   * shows the input value of the same name.
   */
  lemma DetailsOrder(data: ExportData)
    ensures Labels(GenerateDoc(data)[2].lines) ==
      ["Formation", "Mode", "Nombre de sessions"]
      + (if data.mode == OnSiteLabel then ["Zone de déplacement", "Frais de déplacement"] else [])
      + ["TJM appliqué"]
    ensures Fields(GenerateDoc(data)[2].lines) ==
      [("Formation", Text(data.formation)), ("Mode", Text(data.mode)), ("Nombre de sessions", Count(data.sessions))]
      + (if data.mode == OnSiteLabel then
           [("Zone de déplacement", Text(data.travelZone)), ("Frais de déplacement", Euros(data.travelCost))]
         else [])
      + [("TJM appliqué", Euros(data.tjm))]
  {
    DetailsViews(data);
  }

  /** The zone and travel-cost lines appear exactly for an on-site quotation. */
  lemma TravelLinesIff(data: ExportData)
    ensures HasField(GenerateDoc(data), "Zone de déplacement") <==> data.mode == OnSiteLabel
    ensures HasField(GenerateDoc(data), "Frais de déplacement") <==> data.mode == OnSiteLabel
  {
    var doc := GenerateDoc(data);
    if data.mode == OnSiteLabel {
      assert doc[2].lines[5].name == "Zone de déplacement";
      assert doc[2].lines[6].name == "Frais de déplacement";
    } else {
      assert |doc[2].lines| == 6;
      assert |doc[4].lines| == 2;
      assert |doc[5].lines| == 1;
    }
  }

  /**
   * The two general conditions are always listed; the Lyon and package
   * conditions follow exactly for an on-site quotation.
   */
  lemma ConditionsList(data: ExportData)
    ensures Bullets(GenerateDoc(data)) ==
      [PrepCondition, LearnerCapCondition]
      + (if data.mode == OnSiteLabel then [LyonCondition, ForfaitCondition] else [])
    ensures LyonCondition in Bullets(GenerateDoc(data)) <==> data.mode == OnSiteLabel
    ensures ForfaitCondition in Bullets(GenerateDoc(data)) <==> data.mode == OnSiteLabel
  {
    LayoutViews(data.clientName, Details(data), Conditions(data), data.totalHT);
    DetailsViews(data);
    ConditionsViews(data);
  }

  /**
   * Every amount in the document is copied from its input: the travel
   * cost (on site only), the daily rate and the total excluding tax.
   */
  lemma NoRecomputation(data: ExportData)
    ensures Amounts(GenerateDoc(data)) ==
      (if data.mode == OnSiteLabel then [data.travelCost] else []) + [data.tjm, data.totalHT]
  {
    LayoutViews(data.clientName, Details(data), Conditions(data), data.totalHT);
    DetailsViews(data);
    ConditionsViews(data);
  }
}

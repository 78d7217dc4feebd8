# Training quotation calculator — Dafny model

This project models the core of the NowBrains training quotation calculator.

- **Pricing engine.** `calculateTotal` turns a selection into a priced quotation: an offering from the five-entry catalog, a delivery mode (on site / remote), a session count, a travel zone (local / regional / distant) and a daily rate (TJM). The quotation holds the billed days, the travel cost, the total excluding tax (HT), the 20% VAT (TVA) and the total including tax (TTC). While the form is incomplete the engine returns nothing.
- **Export gate.** The "Générer le devis" button needs a quotation and a rate of at least 1000. The "Télécharger le document" button needs a client name. `handleExport` then builds the document and names the file `Devis_<client>_<offering>.docx`.
- **Document content.** `generateDoc` builds the quotation document. It is modelled as an ordered sequence of paragraphs and text lines, not as a word-processor object.

Modules:

- `Wrappers`: `Option`.
- `Catalog`: the offering and zone catalogs as closed enumerations.
- `Pricing`: `Selection`, `Quote`, the billed days, the travel cost and the totals.
- `QuoteDocument`: `ExportData`, `GenerateDoc`, and views of a document: field labels, fields with the values they show, amounts and bullets.
- `Export`: the two buttons, `handleExport`, and the string operations behind the file name (`split(" - ")[0]` and `replace(/\s+/g, "_")`).

Amounts are exact reals. An empty form field is `None`.

## Model

| member | source | states |
|---|---|---|
| Catalog.FormationName | src/app/page.tsx:25-31 | offering names contain no '-', so the first " - " of a quotation label ends the name |
| Catalog.FormationLabel | src/app/page.tsx:113 | definition of the label a quotation echoes, "<name> - <duration>"; its properties are stated in Export.SplitHeadLabel and Export.CatalogToken |
| Catalog.FormationDuration | src/app/page.tsx:26-30 | definition of the `duration` field of each offering; its properties are stated in Catalog.BaseDays, Pricing.QuoteEcho and Export.SplitHeadLabel |
| Catalog.IsHalfDay | src/app/page.tsx:72 | definition of the half-day test, a '½' in the duration text; its properties are stated in Catalog.BaseDays and Pricing.ShortOfferingBilledAsFullDay |
| Catalog.BaseDays | src/app/page.tsx:72-87 | a session counts 0.5 day for the two "½ journée" offerings and 1 day for every other offering, "2 heures" included |
| Catalog.ModeLabel | src/app/page.tsx:114 | definition of the echoed mode, "Présentiel" or "Distanciel"; its properties are stated in Pricing.QuoteEcho, Pricing.RemoteQuote and Export.ExportedDocument |
| Catalog.ZoneName | src/app/page.tsx:33-52 | definition of the `name` field of each travel zone ("Local", "Régional", "Distante"); its properties are stated in Pricing.QuoteEcho |
| Catalog.ZonePricing | src/app/page.tsx:33-52 | definition of the `pricing` field of each travel zone (0, 180, 300); its properties are stated in Pricing.TravelCost and Pricing.OnSiteNearTravel |
| Pricing.Ceil | src/app/page.tsx:102 | `Math.ceil`: the result is the integer c with x ≤ c < x + 1 |
| Pricing.CeilHalf | src/app/page.tsx:80 | ceil(n / 2) is the integer (n + 1) / 2 |
| Pricing.BilledDays | src/app/page.tsx:71-88 | days are never negative; sessions × base days except on site in the distant zone; there, (n + 1) / 2 whole days for a half-day offering and n days otherwise |
| Pricing.TravelCost | src/app/page.tsx:90-105 | 0 when remote, without a zone or local; 180 × ceil(days) when regional; 300 for at most one distant day, else 300 + 220 × (days − 2) + 300 |
| Pricing.Price | src/app/page.tsx:107-123 | the quotation echoes its inputs; HT minus travel is tjm × days; TVA is one fifth of HT; TTC is 1.2 × HT |
| Pricing.Incomplete | src/app/page.tsx:67 | definition of the incomplete-form test; its properties are stated in Pricing.Calculate and Export.ExportQuote |
| Pricing.Calculate | src/app/page.tsx:66-69 | no quotation exactly when the offering, the mode or the sessions are empty, or the mode is on site without a zone |
| Pricing.QuoteEcho | src/app/page.tsx:112-123 | the quotation echoes the offering label "<name> - <duration>", the mode label, the session count and the rate; the zone's name on site and "N/A" remotely |
| Pricing.RemoteQuote | src/app/page.tsx:75-116 | remote: the zone has no effect on the quotation; travel is 0; days are sessions × base days; the zone shows "N/A" and the mode "Distanciel"; HT is tjm × days |
| Pricing.OnSiteDistantDays | src/app/page.tsx:75-84 | on site and distant: days are whole; (n + 1) / 2 for half-day offerings (1–2 sessions give 1 day, 3–4 give 2); n for the others |
| Pricing.OnSiteNearTravel | src/app/page.tsx:101-103 | on site: local costs 0; regional costs 180 × ceil(days), i.e. 180 × (n + 1) / 2 for half-day offerings and 180 × n otherwise |
| Pricing.OnSiteDistantTravel | src/app/page.tsx:94-100 | distant: 300 for at most one day; more than one day means at least two, costing 300 + 220 × (days − 2) + 300 (600 for 2 days, 820 for 3) |
| Pricing.QuoteNonNegative | src/app/page.tsx:107-110 | with a non-negative rate, days, travel, HT, TVA and TTC are all non-negative |
| Pricing.FullDayDistantExample | src/app/page.tsx:66-124 | M365 on site, 2 sessions, distant, TJM 1000: 2 days, travel 600, HT 2600, TVA 520, TTC 3120 |
| Pricing.HalfDayRemoteExample | src/app/page.tsx:66-124 | half-day cybersecurity remote, 4 sessions, TJM 1200: 2 days, travel 0, HT 2400, TVA 480, TTC 2880 |
| Pricing.ShortOfferingBilledAsFullDay | src/app/page.tsx:72-88 | in every mode and zone, the "2 heures" offering is billed one whole day per session |
| QuoteDocument.GenerateDoc | src/lib/generate-doc.ts:14-73 | definition of the document; its properties are stated in QuoteDocument.DocumentOrder, QuoteDocument.DetailsOrder, QuoteDocument.TravelLinesIff, QuoteDocument.ConditionsList and QuoteDocument.NoRecomputation |
| QuoteDocument.Layout | src/lib/generate-doc.ts:19-66 | definition of the six-paragraph page around the two blocks; its properties are stated in QuoteDocument.LayoutViews and QuoteDocument.DocumentOrder |
| QuoteDocument.Details | src/lib/generate-doc.ts:29-42 | definition of the details block; its properties are stated in QuoteDocument.DetailsViews and QuoteDocument.DetailsOrder |
| QuoteDocument.TravelLines | src/lib/generate-doc.ts:36-39 | definition of the on-site travel lines; its properties are stated in QuoteDocument.TravelViews and QuoteDocument.TravelLinesIff |
| QuoteDocument.Conditions | src/lib/generate-doc.ts:47-56 | definition of the conditions block; its properties are stated in QuoteDocument.ConditionsViews and QuoteDocument.ConditionsList |
| QuoteDocument.HeadViews | src/lib/generate-doc.ts:31-35 | the head of the details block has the fields Formation, Mode, Nombre de sessions, showing the input's offering, mode and session count; no amount; no bullet |
| QuoteDocument.TravelViews | src/lib/generate-doc.ts:36-39 | the travel lines are the zone and travel-cost fields, showing the input's zone and travel cost, exactly when the mode is "Présentiel"; otherwise there are none |
| QuoteDocument.DetailsViews | src/lib/generate-doc.ts:29-42 | the details block lists its fields in order, each showing the input value of the same name; its amounts are the travel cost (on site only) and then the rate; it holds no bullet |
| QuoteDocument.ConditionsViews | src/lib/generate-doc.ts:47-56 | the conditions block holds the two general bullets, then the Lyon and package bullets on site only; no field; no amount |
| QuoteDocument.LayoutViews | src/lib/generate-doc.ts:19-66 | the amounts of the page are those of the details, then the conditions, then the total HT; its bullets are those of the details and the conditions |
| QuoteDocument.DocumentOrder | src/lib/generate-doc.ts:19-66 | six paragraphs in order: title, "Client : <name>", details, "Conditions" heading, conditions list, total HT |
| QuoteDocument.DetailsOrder | src/lib/generate-doc.ts:31-40 | details fields, each with the value it shows: Formation (offering), Mode (mode), Nombre de sessions (session count), then on site only Zone de déplacement (zone) and Frais de déplacement (travel cost), then TJM appliqué (rate) |
| QuoteDocument.TravelLinesIff | src/lib/generate-doc.ts:36-39 | the zone and travel-cost fields appear in the document if and only if the mode is "Présentiel" |
| QuoteDocument.ConditionsList | src/lib/generate-doc.ts:49-54 | the bullets are the preparation and learner-cap conditions, then the Lyon and package conditions exactly on site |
| QuoteDocument.NoRecomputation | src/lib/generate-doc.ts:36-60 | the document's amounts are exactly the travel cost (on site), the rate and the total HT, copied from its input; nothing else |
| Export.SplitHead | src/app/page.tsx:146 | `split(sep)[0]`: a prefix of the text, with no occurrence of the separator before its end, which is the end of the text or where the separator starts |
| Export.IsSpace | src/app/page.tsx:146 | definition of the `\s` class of a JavaScript regular expression (white space and line terminators); its properties are stated in Export.Underscored and Export.TrimStart |
| Export.TrimStart | src/app/page.tsx:146 | drops exactly the leading whitespace: the result is a suffix, every character dropped is whitespace, and the result does not start with whitespace |
| Export.Underscored | src/app/page.tsx:146 | `replace(/\s+/g, "_")`: the result contains no whitespace and is no longer than the text |
| Export.UnderscoredNoSpace | src/app/page.tsx:146 | text without whitespace is left unchanged |
| Export.UnderscoredGap | src/app/page.tsx:146 | a word, a whitespace run of any length and a rest: the run becomes a single '_' |
| Export.UnderscoredWords | src/app/page.tsx:146 | words joined by single spaces come out joined by single underscores |
| Export.SplitHeadLabel | src/app/page.tsx:113 | the text before the first " - " of "<name> - <duration>" is the name when the name has no '-' |
| Export.CatalogToken | src/app/page.tsx:146 | the file-name token of each catalog offering: "Formation_Cybersécurité", "Formation_aux_Outils_Collaboratifs_M365" or "Formation_IA" |
| Export.FileName | src/app/page.tsx:146 | definition of the download name; its properties are stated in Export.ExportedFileName, Export.CatalogToken and Export.AiFileNameExample |
| Export.ExportDataOf | src/app/page.tsx:130-139 | definition of what handleExport hands to generateDoc, the HT figures only; its properties are stated in Export.HandleExport and Export.ExportedDocument |
| Export.GenerateEnabled | src/app/page.tsx:333 | definition of the "Générer le devis" gate; its properties are stated in Export.ExportQuote and Export.BelowFloorStillPriced |
| Export.DownloadEnabled | src/app/page.tsx:361 | definition of the "Télécharger le document" gate; its properties are stated in Export.ExportQuote |
| Export.HandleExport | src/app/page.tsx:126-146 | produces a file exactly when there is a quotation and a client name; the document is built from the client and the quotation's HT figures; the file is named after both |
| Export.ExportQuote | src/app/page.tsx:330-364 | the whole path exports exactly when the selection is complete, TJM ≥ 1000 and the client name is non-empty; it then equals handleExport on the current quotation |
| Export.BelowFloorStillPriced | src/app/page.tsx:259-261 | a rate below 1000 still yields a quotation but no export |
| Export.ExportedDocument | src/app/page.tsx:129-139 | the exported document shows the quotation's own travel cost (on site), rate and HT and no tax figure; its details fields show the quotation's offering label, mode label, sessions, zone and travel cost (on site) and rate; it has the zone field and the Lyon condition exactly on site |
| Export.ExportedFileName | src/app/page.tsx:146 | the exported file is named "Devis_" + client + "_" + the offering name with its spaces as '_' + ".docx" |
| Export.AiFileNameExample | src/app/page.tsx:146 | "Formation IA" exported for "Acme" is saved as "Devis_Acme_Formation_IA.docx" |

## Left out

- The React page is not modelled: form state (`useState`), radio groups, inputs, the dialog and all markup. The model takes the form's values as a `Selection` and a client name.
- The download plumbing in `handleExport` is not modelled: `Packer.toBuffer`, the Blob, the object URL and the link click. It is I/O through foreign libraries. The model stops at the document and the file name.
- The `docx` classes are not modelled: styling, spacing, bold runs, font sizes and heading levels. The document is an ordered sequence of paragraphs and lines.
- The newlines that only lay out the document are not modelled: the leading one of the "Conditions" heading and of the total line, and the trailing one of each run.
- A `Euros` value stands for the run's "<amount> € HT" text. The number formatting of the source is not modelled.
- src/app/layout.tsx is not part of this model. It holds only page metadata and markup.
- Floating-point arithmetic is not modelled. Amounts are exact reals, so `totalHT * 0.20` has no rounding error here.
- `Number(...)` parsing of the form strings is not modelled, including NaN for a non-numeric rate. Sessions are a natural number and the rate is a real.
- Unknown catalog ids are not modelled. Catalog lookups are closed enumerations, so the `find` that returns `undefined` cannot occur.
- The on-screen explanation of the travel cost is not modelled. It is view-only text.
- The zone `description` strings are not modelled. They are only shown on screen.
- The quotation echoes the session count as a number, where the source echoes the form's string.
- Sessions may be 0, because the engine itself does not reject 0 (only the input field has a minimum of 1). Every property holds for all natural numbers. Negative or fractional counts ("-2", "1.5") are not modelled, although the field lets them through and the engine would price them.
- The "2 heures" offering is billed as a full day per session, in every mode and zone. Its duration text has no '½', and the code tests for that character. `ShortOfferingBilledAsFullDay` states this behaviour of the code.

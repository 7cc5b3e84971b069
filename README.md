# Horizontal fuel tank designer and documentation servers

This project models the computational core of a design system for horizontal,
above-ground steel fuel tanks built to SANS 10131:2004. It also models the two
small HTTP handlers that serve the design documents.

**The designer** (`Tank.ProfessionalTankDesigner`):

- It is built from a requested capacity in litres.
- It picks the tank dimensions. Requests from 8000 L to 12000 L get the standard
  1870 mm × 3680 mm tank of 9000 L. Any other request gets a cylinder with
  L = 2D whose diameter comes from the cube root of 2V/π.
- It sizes the shell by the hoop-stress formula t = PR/(SE − 0.6P) + CA, with
  a 6 mm floor. The source's comment labels the formula API 650, but its form
  is that of ASME BPVC Section VIII Division 1, UG-27(c)(1). It also sizes the
  knuckle and crown radii of the dished ends.
- It fills an insertion-ordered component table with nine entries: shell,
  dished ends, manhole, saddles, lifting lugs and four nozzles. Each nozzle's
  wall thickness is looked up in a standard pipe table.
- It records a register of 17 safety requirements taken from six standards.
- The compliance matrix of the report groups that register by standard, in the
  order the `SafetyStandard` enumeration declares. It skips standards with no
  requirement, keeps the register's order inside each section, and labels the
  inspector column "Yes"/"No".

**The servers:**

- Both GET handlers send `/` and `/index.html` to the dashboard.
- A path under `/document/` goes to the document named by its last segment.
  Anything else is left to the framework's static file serving.
- A document reply is:
  - 404 when the file does not exist;
  - 500 when reading or converting the file raises;
  - otherwise a page. Its content is the markdown converter's output for a
    `.md` file, and the text wrapped in `<pre>…</pre>` for anything else. Its
    title is the file name with `_` turned into spaces and `.md` removed.
- `main.py` adds a header allowing any origin and names the missing file in its
  404.
- `documentation_server.py` sends neither: it has no cross-origin header and
  its 404 is bare.

**Modules:**

- `Text`: string helpers with their own lemmas.
  - `str.replace` and `str.split` with the split/join round trip. The round
    trip is what `Routing.RouteOfSegments` rests on.
  - ASCII `str.title` (characterised by `Text.TitleFromAt`, which gives the
    nozzle names in `Tank.NozzleTitleChars`) and decimal rendering.
- `Dict`: insertion-ordered Python dictionaries. A key's first insertion fixes
  its position.
- `Safety`: the standards, the register and the compliance matrix.
- `Tank`: the dimension and thickness formulas, the component table and the
  designer class.
- `Routing`: what the two handlers share. The handlers' differences are held in
  a `Style` record.
- `MainServer` and `DocServer`: the two handlers as methods that follow the
  source's steps, each proved equal to the shared reply function.

**Values and stubs:**

- Quantities are `real`s.
- The cube root (`** (1/3)`) is a parameter of the constructor. π is a constant.
- The file system is a map from names to file text or read error.
- The markdown converter is an opaque function parameter.

## Model

| member | source | states |
|---|---|---|
| Tank.OptimalDimensions | professional_tank_design_system.py:127-144 | A request inside the 8000–12000 L band gives 1870 mm, 3680 mm and 9000 L. Any other request gives length = 2 × diameter, actual capacity = the request, and diameter = cube root of 2V/π × 1000 |
| Tank.StandardBandIgnoresRequest | professional_tank_design_system.py:131-134 | Any two requests inside the standard band give the same dimensions, whatever cube root is used |
| Tank.ShellThickness | professional_tank_design_system.py:146-159 | The selected shell thickness is at least 6 mm and at least the hoop-stress thickness t = PR/(SE − 0.6P) + CA, and it is one of the two. The source's comment labels that formula API 650; its form is ASME VIII-1 UG-27(c)(1) |
| Tank.SelectedThicknessIdempotent | professional_tank_design_system.py:577-578 | Clamping the selected thickness to 6 mm again, as the report does, changes nothing |
| Tank.ShellThicknessForSteel | professional_tank_design_system.py:146-159 | For Grade 300WA at 2.5 psig the stress term is positive and the calculated thickness grows with the diameter. Every diameter up to 50 m gets the 6 mm minimum |
| Tank.KnuckleRadius | professional_tank_design_system.py:162 | The knuckle radius is at least 60 mm and at least 6 % of the diameter, and it is one of the two |
| Tank.KnuckleRadiusLargeTank | professional_tank_design_system.py:162 | From a 1 m diameter on, the knuckle radius is 6 % of the diameter |
| Tank.CrownRadius | professional_tank_design_system.py:163 | The crown radius lies between D and 1.5·D, as the design comment requires |
| Tank.PipeThickness | professional_tank_design_system.py:344-351 | NPS 25, 50 and 80 give 2.87, 3.68 and 5.49 mm. Any other size falls back to 3.68 mm |
| Tank.ExactCubeRootMatches | professional_tank_design_system.py:580-583 | Outside the band, an exact cube root gives a cylinder whose volume is the requested capacity, so the report's capacity check passes |
| Tank.StandardTankCapacityCheck | professional_tank_design_system.py:580-583 | Inside the band the check compares the 9000 L tank with the request. It passes from 9700 L to 10600 L and fails at or below 9600 L and at or above 10610 L |
| Tank.NozzleEntriesSnoc | professional_tank_design_system.py:317-318 | Adding a nozzle spec appends its component entry |
| Tank.ComponentEntriesSplit | professional_tank_design_system.py:165-342 | The component table is the five fixed components followed by the nozzle entries |
| Tank.ComponentKeysDistinct | professional_tank_design_system.py:168-342 | The nine keys (shell, dished_ends, manhole, support_saddles, lifting_lugs, fill/vent/outlet/drain nozzle) are distinct |
| Tank.FixedEntriesKeys | professional_tank_design_system.py:168-308 | The fixed entries carry the five fixed keys in source order |
| Tank.ComponentTableKeys | professional_tank_design_system.py:165-342 | The table's keys are the fixed keys followed by the nozzle spec keys in spec order |
| Tank.FillFromEmpty | professional_tank_design_system.py:118-342 | Inserting entries with the nine distinct keys into `{}` yields a valid dictionary whose items are exactly those entries, in order |
| Tank.NozzleComponentFacts | professional_tank_design_system.py:318-341 | A nozzle component's thickness is the pipe table's value for its size, its safety factor is the nozzle factor, and its first dimension is its nominal size |
| Tank.NozzleTitleChars | professional_tank_design_system.py:319 | Character by character, a nozzle's display name is its key with each underscore turned into a space, and each letter upper-cased exactly when no letter precedes it (lower-cased otherwise) |
| Tank.FillNozzleTitle | professional_tank_design_system.py:311-319 | The fill nozzle is named "Fill Nozzle" |
| Tank.VentNozzleTitle | professional_tank_design_system.py:312-319 | The vent nozzle is named "Vent Nozzle" |
| Tank.OutletNozzleTitle | professional_tank_design_system.py:313-319 | The outlet nozzle is named "Outlet Nozzle" |
| Tank.DrainNozzleTitle | professional_tank_design_system.py:314-319 | The drain nozzle is named "Drain Nozzle" |
| Tank.NozzleComponentsUsePipeTable | professional_tank_design_system.py:310-342 | Entry 5 + k of the table is nozzle k under its own key, with the pipe-table thickness and the nozzle safety factor (2.5 for the designer) |
| Tank.ComponentTableFixed | professional_tank_design_system.py:168-308 | The first five entries are shell, dished ends, manhole, saddles and lugs, built from the designer's dimensions and the matching safety factors |
| Tank.FixedComponentDimensions | professional_tank_design_system.py:168-308 | Shell and ends carry the shell thickness. The ends record the knuckle radius. The manhole is 600 mm. Saddles sit at 0.29 L from centre and lugs are spaced 0.67 L |
| Tank.NozzleSpecThickness | professional_tank_design_system.py:310-351 | The four nozzles (80, 50, 50, 25) get 5.49, 3.68, 3.68 and 2.87 mm walls |
| Tank.PutFive | professional_tank_design_system.py:168-308 | Five successive insertions are one batch insertion of the five entries |
| Tank.DesignedTable | professional_tank_design_system.py:165-342 | The designer's table has exactly the nine keys in insertion order, and its items are the component entries |
| Dict.PutUpdates | professional_tank_design_system.py:169-342 | A dictionary assignment `d[k] = v` keeps the dictionary valid. An existing key keeps its place, a new key goes to the end, `k` takes the new value, and every other key keeps its own |
| Dict.PutAllValid | professional_tank_design_system.py:165-342 | A run of assignments keeps the dictionary valid, leaves the keys already present at their positions, and gives every assigned key a place |
| Dict.FillFresh | professional_tank_design_system.py:118-342 | Assigning entries with distinct keys into an empty dictionary gives back exactly those entries as its items, in order |
| Dict.PutAllAppend | professional_tank_design_system.py:165-342 | Assigning one batch after another is the same as assigning their concatenation |
| Tank.ProfessionalTankDesigner.constructor | professional_tank_design_system.py:87-125 | Records capacity, capacity in m³, safety factors, Grade 300WA properties, 2.5 psig, 60 °C and the ×1.5 test factor. Then sets the optimal dimensions, shell thickness and radii, the full component table, the 17-entry register and an empty checklist |
| Tank.ProfessionalTankDesigner.CalculateOptimalDimensions | professional_tank_design_system.py:127-163 | The new dimensions, shell thickness, knuckle and crown radii are those of the specification functions for the capacity |
| Tank.ProfessionalTankDesigner.GenerateComponentSpecifications | professional_tank_design_system.py:165-342 | The table becomes the old table with the nine component entries inserted in order |
| Tank.ProfessionalTankDesigner.PutFixedComponents | professional_tank_design_system.py:168-308 | Inserts the five fixed components in source order |
| Tank.ProfessionalTankDesigner.PutNozzleComponents | professional_tank_design_system.py:317-342 | The loop inserts one component per nozzle spec, in spec order |
| Tank.ProfessionalTankDesigner.GenerateSafetyRequirements | professional_tank_design_system.py:353-480 | The register becomes the 17 requirements in source order |
| Tank.ProfessionalTankDesigner.ComplianceMatrixReport | professional_tank_design_system.py:543-563 | The text produced is the compliance matrix of the designer's register |
| Safety.AllStandardsEnumerate | professional_tank_design_system.py:47-59 | The ten standards, in declaration order, are each listed once at their rank |
| Safety.RegisterLayout | professional_tank_design_system.py:353-480 | 17 requirements in runs of 5 SANS 10131, 4 API 650, 4 ISO 9001, 2 SANS 1431, 1 SANS 9956-3 and 1 SANS 9606-1. None is marked compliant. An inspector is required for every one except the ISO 9001 entries |
| Safety.MatrixSections | professional_tank_design_system.py:552-563 | Each section holds the requirements of its standard, in register order, and is non-empty. The sections cover exactly the standards used. They follow enumeration order, so no standard appears twice |
| Safety.MatrixCoverageCount | professional_tank_design_system.py:546-554 | The "Standards Coverage" count (distinct standards) equals the number of sections printed |
| Safety.MatrixPartitions | professional_tank_design_system.py:552-563 | The rows of all sections together are a permutation of the register |
| Safety.RegisterMatrix | professional_tank_design_system.py:353-563 | The register covers exactly the six standards cited, giving six sections whose sizes are 5, 4, 4, 2, 1 and 1 |
| Safety.InspectorLabel | professional_tank_design_system.py:561 | "Yes" exactly when an inspector is required, and "No" exactly when not |
| Safety.AppendRows | professional_tank_design_system.py:560-562 | The loop appends one table row per requirement |
| Safety.AppendSection | professional_tank_design_system.py:553-562 | Appends a standard's section when it has requirements, and nothing otherwise |
| Safety.RenderComplianceMatrix | professional_tank_design_system.py:543-563 | The loop over the enumeration yields the header followed by the section text of each covered standard |
| Routing.RouteOf | main.py:20-30 | Dashboard exactly for "/" and "/index.html". A document exactly for other paths starting "/document/". Any other path is left unchanged for static serving |
| Routing.RouteOfDocumentLink | main.py:26-28 | "/document/" + name routes to that name whenever it holds no '/' |
| Routing.DocumentNameIsLastSegment | main.py:27 | The document name is a suffix of the path, holds no '/', and directly follows a '/' |
| Routing.RouteOfSegments | main.py:26-28 | A path joined from '/'-free segments that begins "", "document" routes to the document named by its last segment. Together with the split/join round trip, this is why `split('/')[-1]` picks that segment |
| Routing.TitleHasNoUnderscore | main.py:464 | No page title holds an underscore |
| Routing.TitleOfMarkdownFile | main.py:464 | The title of stem + ".md" is the stem with underscores turned into spaces, provided the stem itself holds no ".md" |
| Routing.SpacingKeepsMd | main.py:464 | Turning underscores into spaces creates no new ".md" |
| Routing.PlainTextIsPreformatted | main.py:458-462 | A file not ending in ".md" never reaches the converter. Its content is the text wrapped in `<pre>` and `</pre>` |
| Routing.NotFound | main.py:450-452 | The missing-file reply is an error reply with status 404 |
| Routing.ServerError | main.py:634-635 | The exception reply is an error reply with status 500 |
| Routing.DocumentReplyShape | main.py:449-635 | A document reply is a 200 page with the handler's headers, or an error with status 404 or 500 |
| Routing.NotFoundIffMissing | main.py:450-452 | 404 exactly when the file does not exist. The reply then depends neither on the other files nor on the converter |
| Routing.ServerErrorIffFailure | main.py:454-635 | 500 exactly when the file exists and either reading it fails or it is markdown and conversion fails |
| Routing.PageOfReadableFile | main.py:454-633 | A page is sent exactly when the file reads and renders. Its title comes from the file name and its content from the renderer |
| Routing.GetReplyRoutes | main.py:20-30 | Dashboard paths reply with the dashboard page, document paths with the document reply for the last segment, and other paths are delegated |
| MainServer.ServeMainDashboard | main.py:443-447 | 200 with the dashboard and the headers `Content-type: text/html; charset=utf-8` and `Access-Control-Allow-Origin: *` |
| MainServer.ServeDocument | main.py:449-635 | The steps (exists check, read, markdown or `<pre>`, title, send) yield the shared document reply in this handler's style |
| MainServer.HandleGet | main.py:20-30 | The if/elif/else on the path yields the shared GET reply in this handler's style |
| DocServer.ServeMainDashboard | documentation_server.py:310-313 | 200 with the dashboard and only the content-type header |
| DocServer.ServeDocument | documentation_server.py:315-431 | The same steps yield the shared document reply with a bare 404 and "Error: " before a 500's message |
| DocServer.HandleGet | documentation_server.py:21-31 | The same routing as the main handler, in this handler's style |
| DocServer.AgreesWithMainServer | documentation_server.py:310-431 | Given the same files and converter, both handlers send the same statuses and pages and delegate the same paths. The main handler's headers are the documentation server's plus the cross-origin header. The documentation server's 404 carries no message |

## Left out

**Tank design:**

- The `capacity_liters` default of 10000 is not modelled. Every caller passes
  the capacity.
- Tank.ProfessionalTankDesigner.constructor requires a non-negative capacity.
  For a negative one, the source raises a complex number to the power 1/3, and
  `max` then fails on the complex result.
- Floating-point rounding is not modelled: quantities are exact `real`s.
  - The cube root `** (1/3)` is a parameter. Tank.ExactCubeRootMatches assumes
    that root is exact.
  - π is a rational constant.
  - None of the report's `:.1f`-style formatting is modelled.
- The dictionaries `safety_factors` and `material_properties` become records,
  because they are only ever read by fixed keys.
- The fields that `__init__` sets once and never changes are `const` fields of
  the class.
- `__init__` assigns `components`, `safety_requirements` and
  `quality_checklist` after the dimension calculation. The model assigns them
  before it. The dimension calculation touches none of them, so the state
  reached is the same.
- The report text outside the compliance matrix is left out: the project
  summary, the component listing, the calculations, weights, the quality
  checklist and the timestamp. So are `generate_safety_checklist` and the
  weight helpers.
- Component prose (materials, quality and inspection lists) is modelled as the
  literal strings of the source, but no lemma states anything about that text.
- `str.title` is modelled on ASCII letters only.
- The STEP/CAD generators and the PDF generator are not part of this model.
  They are file output through external libraries.

**Servers:**

- `urlparse` is not modelled. The path is taken to be already free of query
  and fragment.
- Static file serving (`super().do_GET()`) is modelled only as a delegated
  reply.
- `send_error`'s generated error page and headers beyond the status and
  message are not modelled.
- The dashboard HTML and the document page template are abstracted as
  `DashboardPage` and `DocumentPage(title, content)`.
- The markdown converter is an opaque function. In the source, the two handlers
  configure it with different extensions (main.py adds `toc`), and that
  difference is not modelled.
- Reading files is modelled as a map from names to text or read error. UTF-8
  decoding is folded into that error. `os.path.exists` of the empty name is
  false.
- An exception raised while writing the response to the socket, after the
  headers have gone, is not modelled.
- Socket servers, server start-up, port selection, browser opening, threads
  and logging are not modelled.
- Routing.TitleOfMarkdownFile assumes the stem holds no ".md". The source
  removes every ".md" in the name, not only a suffix. `Routing.Title` models
  that behaviour as written.

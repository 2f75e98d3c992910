# Alpha Tech employee cards and attendance — a verified model

The application is a single Streamlit page (`app.py`) for a small company.
An operator fills in an employee form; the page allocates an identifier of
the form `AT-NNN`, appends the employee to the session's roster, and draws a
1054×640 identity card whose QR code carries the employee's details. An
administrator can mark attendance by typing an identifier or by "scanning" a
QR code, which appends a timestamped row to the attendance log.

This Dafny project models the deterministic logic under that page and proves
what it guarantees:

- **Identifier allocation** (`unique_id.dfy`, `roster.dfy`): `AT-` followed by
  the roster length plus one, zero-padded to at least three digits and never
  truncated; the identifier reads back to its number, so distinct numbers give
  distinct identifiers. The allocator's retry loop recomputes the same
  candidate on every pass: `Roster.Store.GenerateUniqueId` proves that however
  many passes run, an identifier comes back exactly when that one candidate is
  free. On a roster built by the form itself (row `i` holds number `i + 1`,
  `Roster.SequentialIds`, which every submission preserves) the candidate is
  always free and the identifiers are pairwise distinct; on a roster read back
  from disk whose rows are numbered otherwise, the loop can spin forever
  (`Roster.LoadedRosterStallsAllocator`).
- **QR payload** (`qr_payload.dfy`): one `key: value` line per record entry in
  the dictionary's insertion order (`Unique ID`, `Name`, `CNIC`, `Age`, `Role`,
  `City`, `Shift`, `Photo`), joined by newlines with none after the last line.
  A reference decoder (split on newlines, then at the first `": "`) recovers
  every entry in order whenever keys hold no colon and no value holds a
  newline.
- **Crop to aspect** (`crop.dfy`): the crop box lies inside the image, keeps
  the full height (wide images) or full width (tall images), is centred in the
  other direction, and is the largest box of that side not exceeding the
  target ratio. For the card's 300×400 target it equals the integer forms
  `w*4 > h*3`, `h*3/4`, `w*4/3`.
- **Card compositor** (`card.dfy`): the card is a `Canvas` object whose
  drawing operations are recorded in order. `CreateEmployeeCard` is proved to
  draw exactly `CardOps`, and lemmas about `CardOps` state the layout: every
  pasted picture is inside the canvas; the photo is pasted exactly when it
  decoded and the grey placeholder is drawn otherwise (the same rectangle on
  the no-photo and the failed-photo paths); the one QR code carries the
  record's payload, is horizontally centred at (427, 390), ends at the footer
  line and is clear of the photo; the seven detail rows sit at
  `y = 150 + 60 i` with labels at `x = 50` and values at `x = 200`.
- **Roster and attendance store** (`roster.dfy`): a `Store` class holding the
  two tables as sequences. Submitting the form appends one row, and draws that
  row's card, only when name and CNIC are non-empty; marking attendance appends exactly one row, naming
  the first roster row whose identifier matches exactly, and changes nothing
  when none matches. Every attendance row keeps resolving to the same
  employee as the roster grows.

The clock is a parameter (`Records.Clock`: formatted date, formatted time,
instant). Whether a logo or photo file was found, stored and decoded is an
input (`Card.LogoInput`, `Card.PhotoInput`); a photo path is recorded in the
roster exactly when the photo input is not `NoPhoto`.

Three behaviours of the code that are easy to misread:

- The allocator does not move on to the next number when its candidate is
  taken: every pass of its loop recomputes the same candidate from the roster
  length, so a taken candidate makes it loop forever (app.py:64-70).
- The QR payload follows the dictionary built at app.py:425-434, not the
  order of the card's detail rows (app.py:160-168): it starts with the
  `Unique ID` line and ends with the `Photo` line, which reads `None` when no
  photo path was stored.
- The grey placeholder is not the 300×400 photo frame: the code draws the
  rectangle `[704, 150, 1004, 450]`, which covers 301×301 pixels
  (app.py:148, app.py:154).

## Model

| member | source | states |
|---|---|---|
| `Decimal.Digits` | app.py:163 | `str` of a non-negative int: at least one character, all decimal digits, no leading zero unless the number is 0 |
| `Decimal.ZeroPad` | app.py:66 | the `0`-flag width padding: length is the larger of the width and the digit count, the digits end the string unchanged, everything before them is `0` |
| `Decimal.ValueOfDigits` | app.py:66 | reading back the rendered digits gives the number |
| `Decimal.ValueIgnoresLeadingZeros` | app.py:66 | zeros added on the left do not change the value read |
| `Decimal.PadDecimalValue` | app.py:66 | the zero-padded rendering still denotes the number: nothing is lost or added |
| `Decimal.PadDecimalInjective` | app.py:66 | two numbers render alike exactly when they are equal |
| `Decimal.DigitsLength` | app.py:66 | a number has at most `k` digits exactly when it is below 10^k |
| `UniqueId.FormatId` | app.py:66 | the identifier starts with `AT-` and continues with at least three digits |
| `UniqueId.ParseFormatId` | app.py:66 | parsing a formatted identifier gives its number back |
| `UniqueId.FormatIdInjective` | app.py:66 | distinct numbers give distinct identifiers, and conversely |
| `UniqueId.FormatIdWidth` | app.py:66 | below 1000 the number is padded to exactly three digits; from 1000 on it is written in full, four or more digits, never truncated |
| `UniqueId.SampleIds` | app.py:65-66 | the first employee gets `AT-001`; number 1000 gives `AT-1000` |
| `UniqueId.CandidateId` | app.py:66 | the allocator's candidate for a roster of length `n` is the identifier that reads back as `n + 1` |
| `Records.Items` | app.py:425-434 | the record's entries come in table column order, `Unique ID` first and `Photo` last |
| `Records.PhotoText` | app.py:81 | the photo cell is written as its path, or as `None` when no path was stored |
| `Records.NewEvent` | app.py:213-219 | the attendance row carries the given identifier and name, and its date, time and timestamp all come from one clock reading |
| `QrPayload.EntryLines` | app.py:81 | one `key: value` line per entry, in entry order |
| `QrPayload.EntryLine` | app.py:81 | an entry's line is the key, then `: `, then the value, and nothing else |
| `QrPayload.JoinLinesEnds` | app.py:81 | the newline join begins with the first line and ends with the last, with no separator before or after; no lines join to the empty string |
| `QrPayload.Payload` | app.py:81 | the payload begins with the first entry's line and ends with the last entry's line |
| `QrPayload.EmployeePayload` | app.py:81 | a record's payload begins with `Unique ID: ` and its identifier and ends with `Photo: ` and the photo cell |
| `QrPayload.SplitAfterHead` | app.py:81 | a newline-free first line is split off at the newline that follows it |
| `QrPayload.SplitJoinLines` | app.py:81 | splitting a newline join of newline-free lines gives back exactly those lines (so no trailing newline is added) |
| `QrPayload.ParseEntryLine` | app.py:81 | a line whose key has no colon splits back into that key and that value |
| `QrPayload.ParseEntryLines` | app.py:81 | every encodable entry list reads back from its lines unchanged |
| `QrPayload.PayloadLines` | app.py:81 | the payload splits into exactly one line per entry, in order |
| `QrPayload.PayloadRoundTrip` | app.py:81 | decoding the payload reproduces every entry, in order |
| `QrPayload.EmployeeEntryLines` | app.py:425-434 | the eight lines of a record, spelled out column by column |
| `QrPayload.EmployeePayloadLines` | app.py:81 | a single-line record's payload is those eight lines and decodes back to the record's entries |
| `Crop.CropToAspect` | app.py:191-208 | the box lies inside the image; wide images keep the full height with the box horizontally centred, others keep the full width with the box vertically centred; the cropped side is the largest not exceeding the target ratio |
| `Crop.ScaledSide` | app.py:198 | `int(side * ratio)` is the largest size whose ratio does not exceed the target, and it stays within the image's side |
| `Crop.CardPhotoCrop` | app.py:145 | the card's 300×400 crop equals the integer forms `w*4 > h*3`, `floor(h*3/4)`, `floor(w*4/3)` of the floating-point code |
| `Crop.OnePixelCrop` | app.py:196-207 | a 1×1 photo gives a zero-width box of one row |
| `Card.Canvas.constructor` | app.py:91-94 | a new canvas of the given size and background with nothing drawn |
| `Card.Canvas.DrawRectangle` | app.py:112 | appends one rectangle to what is drawn and keeps the rest |
| `Card.Canvas.DrawText` | app.py:113-114 | appends one text to what is drawn and keeps the rest |
| `Card.Canvas.PastePicture` | app.py:131 | appends one pasted picture and keeps the rest |
| `Card.Canvas.DrawLine` | app.py:186-187 | appends one line and keeps the rest |
| `Card.CardOpsShape` | app.py:88-189 | the card's drawing opens with the header band and closes with the QR code and then the footer line; 18 operations always, plus one for a logo and one (photo) or two (placeholder and label) for the photo area |
| `Card.DetailOps` | app.py:171-177 | row `i` draws its label followed by `:` at (50, 150 + 60 i) in the primary colour and its value at (200, 150 + 60 i) in black |
| `Card.DrawDetails` | app.py:171-177 | the row loop draws exactly the rows' operations, in order |
| `Card.DrawLogo` | app.py:117-133 | a loaded logo is pasted 80×80 at (50, 2), masked by its alpha when RGBA; an unavailable logo draws nothing |
| `Card.DrawPhoto` | app.py:136-157 | a decoded photo is cropped to 3:4 and pasted 300×400 at (704, 150); with no photo and on failure the same placeholder box and `PHOTO` label are drawn |
| `Card.CreateEmployeeCard` | app.py:88-189 | a fresh 1054×640 white canvas on which exactly the card's operations are drawn, in the source's order |
| `Card.DetailOpAt` | app.py:172-177 | operation `k` of the rows is the label (even `k`) or the value (odd `k`) of row `k / 2` |
| `Card.DetailsAreText` | app.py:172-177 | the detail rows draw text only: no picture, no placeholder, no QR code |
| `Card.PhotoOrPlaceholder` | app.py:136-157 | the card shows the photo exactly when one decoded, and the placeholder exactly when none was given or it failed |
| `Card.PastesInsideCanvas` | app.py:130-183 | every picture pasted on any card lies inside the 1054×640 canvas |
| `Card.CardQrPayload` | app.py:179-183 | the card carries a QR code, every QR code on it is the record's payload in the 200×200 box at (427, 390), and that payload decodes back to the record |
| `Card.CardGeometry` | app.py:146-187 | the QR box is centred, ends at the footer line y = 590 and is clear of photo and placeholder; photo and placeholder fit the canvas; the logo lies in the header |
| `Card.DetailRowsLayout` | app.py:170-177 | 14 text operations, all left of the QR code and the photo, below the header and a row height above the footer; rows Name..Role end above the QR code, the last three share its rows |
| `Card.RowYBounds` | app.py:171-174 | each of the seven rows lies below the header and a full row above the footer; rows 0..3 end above the QR code, rows 4..6 start within its band |
| `Roster.IdTaken` | app.py:69 | an identifier is taken exactly when some roster row holds it |
| `Roster.PhotoPath` | app.py:417 | the stored photo's path is `employee_photo_`, the identifier, then `.png` |
| `Roster.PhotoPathInjective` | app.py:417 | two identifiers get the same photo path exactly when they are equal |
| `Roster.WithId` | app.py:352-354 | the selection holds only rows with exactly that identifier, is empty exactly when no row has it, and starts with the first matching row |
| `Roster.ShiftFirstMatch` | app.py:352-354 | a first match after a non-matching head row is the first match of the whole roster, one place later |
| `Roster.FirstMatchUnique` | app.py:352-354 | a roster has at most one first match per identifier |
| `Roster.SequentialIdsDistinct` | app.py:436-441 | on a roster built by the form no two rows share an identifier |
| `Roster.SequentialNumberFree` | app.py:64-70 | on a roster built by the form no row holds an identifier numbered past the roster's length |
| `Roster.SequentialCandidateFree` | app.py:64-70 | on a roster built by the form the allocator's candidate is free |
| `Roster.LoadedRosterStallsAllocator` | app.py:64-70 | a one-row roster already holding `AT-002` makes the one candidate taken, so the loop never returns |
| `Roster.WithIdAppend` | app.py:436-441 | appending a row keeps every existing identifier's first match |
| `Roster.SequentialAppend` | app.py:436-441 | appending the allocated candidate keeps the roster sequentially numbered |
| `Roster.AttendanceKnownAppend` | app.py:436-441 | appending a roster row keeps every attendance row resolving to the same employee name |
| `Roster.FirstRowMatchesItself` | app.py:248-262 | looking up the first row's own identifier finds the first row |
| `Roster.Store.constructor` | app.py:18-26 | a new session starts with both tables empty |
| `Roster.Store.Loaded` | app.py:38-47 | a session restored from disk holds the tables read back |
| `Roster.Store.GenerateUniqueId` | app.py:62-70 | for any number of loop passes, an identifier is returned exactly when the one candidate `AT-{len+1:03d}` is free, and it is that candidate |
| `Roster.Store.RecordAttendance` | app.py:210-228 | exactly one row (id, name, date, time, timestamp) is appended at the end of the log; the roster and earlier rows are unchanged |
| `Roster.Store.MarkAttendance` | app.py:350-364 | a known identifier appends one row named after its first matching employee; an unknown one reports not found and leaves the log unchanged; the log stays resolvable |
| `Roster.Store.ConfirmScannedAttendance` | app.py:248-266 | with a non-empty roster, attendance is recorded for the first row under its own name; with an empty roster nothing happens; a log whose rows all resolve keeps resolving |
| `Roster.Store.AppendSubmission` | app.py:398-444 | with name or CNIC empty nothing changes; otherwise exactly one record carrying the allocated identifier, the form's fields and the photo path (when a photo was stored) is appended at the end; the attendance log is unchanged and keeps resolving; sequential numbering is kept and then allocation never stalls |
| `Roster.Store.SubmitEmployeeForm` | app.py:398-451 | the roster changes as in `AppendSubmission`; a card is drawn exactly when a record was appended, on a fresh 1054×640 canvas, and it is exactly that record's card for the given logo and photo |

## Left out

- Roster.Store.GenerateUniqueId: the source loops forever when the candidate is taken; the model runs at most `rounds` passes and then returns no identifier, and its contract states that no number of passes ever yields one.
- Roster.Store.SubmitEmployeeForm: the `AllocatorStuck` outcome stands for a submission that never returns, since the source's allocation loop does not terminate in that case.
- Roster.Store.SubmitEmployeeForm: a payload too long for any QR version makes `qr.make(fit=True)` raise (app.py:83) after the row was already appended and saved (app.py:438-444), so the roster grows and no card is made; QR capacity is not modelled, so the model always draws the card.
- The Streamlit interface: widgets, tabs, buttons, messages (`st.error`, `st.success`, `st.warning`), page configuration, the mode buttons and the admin-password gate, which is a plain string comparison (app.py:272-279, 470-515).
- Persistence: `load_data`/`save_data` and the `data/` directory are file I/O; `Roster.Store.Loaded` stands for whatever was read back, and the save after each change is not modelled.
- QR bit encoding, rasterising and resizing, and all pixel work of the image library (fonts and their fallback, resizing, pasting, PNG encoding); the card is modelled as its list of drawing operations and the QR code by the payload it encodes.
- Text extents: whether a value in the rows sharing the QR code's band (Unique ID, City, Shift) runs under the QR code depends on font metrics, which are not modelled.
- Pixel extent of the 5-pixel footer line and of the header rectangle's inclusive right edge (one column past the canvas, clipped by the library); only their coordinates are modelled.
- Whether the image library accepts the zero-width crop of a 1×1 photo when resizing it; the model pastes the crop as computed.
- The scanner's image upload and display (app.py:235-245): it never decodes the image, so only its use of the first row's identifier is modelled.
- The clock and its `strftime` formatting: a `Clock` value is passed in.
- The floating-point behaviour of `crop_to_aspect` for targets other than 300×400: the model uses exact rational arithmetic, which matches the code for the one call site.
- Writing the uploaded logo and photo files and creating the default logo (app.py:404-421, 479-487): file I/O; their outcome is an input.
- Re-drawing every employee's card in the admin view and the attendance CSV export (app.py:288-344): display loops over the tables; each card is `Card.CreateEmployeeCard`.
- Column types of the tables (pandas dtypes): `age` is a natural number, the form bounds it to 18..65.

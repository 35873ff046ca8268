# AstraNova interaction logic and code-saver helpers in Dafny

This project models the two pieces of the AstraNova repository that hold logic
rather than markup, and proves properties of them.

1. **The site's interaction layer** (`src/App.jsx`):
   - the drag-to-scroll controller of the "Hall of Fame" carousel (`HackathonGallery`).
     Its mouse-down, mouse-up/leave and mouse-move handlers update `isDragging`,
     `startX` and `scrollLeft` and write the container's live scroll offset.
     Module `DragScroll` (`drag_scroll.dfy`) gives the handlers' meaning as a pure
     transition function `Step` over a `DragState`. The class `HackathonGallery`
     implements the handlers as methods. Each method is proved to perform exactly one
     `Step`. The lemmas cover gestures made of many events.
   - the custom cursor (`CustomCursor`, `cursor.dfy`): the hover test done by
     `closest('a, button, [data-hover]')`, the position update, and the targets of
     the dot and ring markers.
   - the navigation bar's `scrolled` threshold (`Navbar`, `navbar.dfy`).
2. **The code editor helpers** (`ibhanwork/colour/app.py`, module `CodeSaver` in
   `code_saver.dfy`, with `Timestamp` in `timestamp.dfy`):
   - the language tables with their `.txt` and `text` defaults;
   - the `saved_code/code_<timestamp><ext>` path;
   - the line count and the preview-height clamp;
   - the `strip()` guard in front of the Save and Highlight buttons.

`Wrappers` (`wrappers.dfy`) holds the `Option` type.

The carousel handlers follow the code. A second mouse-down during a drag is NOT ignored:
the handler has no guard and replaces the stored origin (`SecondPressOverwritesOrigin`).
The code also does not clamp the offset it writes, so the model does not clamp it either.

## Model

| member | source | states |
|---|---|---|
| DragScroll.Initial | src/App.jsx:552-554 | on mount the gallery is idle with startX = 0 and scrollLeft = 0; the container keeps its own offset |
| DragScroll.PointerX | src/App.jsx:558 | the pointer's position is its page coordinate minus the container's left edge; the same expression is used at line 569 |
| DragScroll.DragOffset | src/App.jsx:569-571 | the dragged offset moves by twice the pointer's travel, in the opposite direction; the press position gives back the origin offset |
| DragScroll.Step | src/App.jsx:556-572 | a handler call: only a press starts a drag and only moves keep it; only a move during a drag changes the live offset, to origin − 2·(x − startX); only a press changes the stored origin |
| DragScroll.Run | src/App.jsx:562-572 | without a press, the stored origin never changes, and an idle carousel ignores every event |
| DragScroll.MovesDoNotAccumulate | src/App.jsx:566-571 | during a drag, any series of moves ends where one move to the last pointer position would |
| DragScroll.DragGesture | src/App.jsx:556-571 | press then moves: dragging, offset = old offset − 2·(last x − press x); returning to the press point restores the offset |
| DragScroll.ReleaseEndsDrag | src/App.jsx:610-612 | after any history, a mouse-up or mouse-leave ends the drag and keeps the offset and the stored origin |
| DragScroll.LeaveActsAsUp | src/App.jsx:611-612 | mouse-leave has exactly the effect of mouse-up |
| DragScroll.SecondPressOverwritesOrigin | src/App.jsx:556-560 | a press during a drag replaces the origin, as if the first press never happened |
| DragScroll.PressRecordsOrigin | src/App.jsx:556-560 | a press sets dragging, startX = pageX − offsetLeft and scrollLeft = the current offset, and does not scroll |
| DragScroll.CarouselScenario | src/App.jsx:556-572 | press at 800, move to 700 from offset 0 gives offset 200; release gives idle at 200 |
| DragScroll.HackathonGallery.constructor | src/App.jsx:551-554 | the gallery starts idle with startX = 0 and scrollLeft = 0 |
| DragScroll.HackathonGallery.HandleMouseDown | src/App.jsx:556-560 | the new state is one press `Step` from the old state; the container is untouched |
| DragScroll.HackathonGallery.HandleMouseUp | src/App.jsx:562-564 | the new state is one mouse-up (and also one mouse-leave) `Step` from the old state |
| DragScroll.HackathonGallery.HandleMouseMove | src/App.jsx:566-572 | the new state is one move `Step` from the old state; the default action is prevented exactly while dragging |
| CustomCursor.IsInteractive | src/App.jsx:21 | an element matches `a, button, [data-hover]` when it is a link or a button, or when it carries the `data-hover` attribute |
| CustomCursor.Closest | src/App.jsx:21 | finds the first element of the target-then-ancestors chain that is `a`, `button` or has `data-hover`; finds none when none matches |
| CustomCursor.HandleMouseOver | src/App.jsx:20-26 | hovering holds iff some element of the chain is interactive; the position is kept |
| CustomCursor.UpdatePosition | src/App.jsx:16-18 | the position becomes the event's client coordinates; the hover flag is kept |
| CustomCursor.LatestPositionWins | src/App.jsx:16-18 | after several moves the state holds the last position and the old hover flag |
| CustomCursor.Dot | src/App.jsx:39-47 | the 16px dot is centred on the pointer; its scale exceeds 1 exactly while hovering |
| CustomCursor.Ring | src/App.jsx:48-56 | the 40px ring is centred on the pointer; its scale exceeds 1 exactly while hovering |
| CustomCursor.MarkersConcentric | src/App.jsx:41-53 | dot and ring share one centre; on hover they scale to 2.5 and 1.5, otherwise both stay at 1 |
| Navbar.IsScrolled | src/App.jsx:67 | `scrolled` is the strict comparison scrollY > 100, over fractional scrollY |
| Navbar.ScrolledBoundary | src/App.jsx:67 | scrollY > 100: 100 is not scrolled, 100.5 and 101 are; over whole pixels, scrolled iff scrollY ≥ 101 |
| Navbar.ScrolledIsMonotone | src/App.jsx:67 | scrolling further down never clears the flag |
| Timestamp.Format | ibhanwork/colour/app.py:83 | `%Y%m%d_%H%M%S` gives 8 digits, `_`, 6 digits |
| Timestamp.FormatRoundTrip | ibhanwork/colour/app.py:83 | every field can be read back from the formatted timestamp |
| Timestamp.FormatInjective | ibhanwork/colour/app.py:83 | different moments (to the second) format differently |
| CodeSaver.Extension | ibhanwork/colour/app.py:80 | the extension is `.txt` iff the language is not in the table; every extension starts with a dot |
| CodeSaver.LexerName | ibhanwork/colour/app.py:106 | the lexer is `text` iff the language is not in the table |
| CodeSaver.TablesAgree | ibhanwork/colour/app.py:28-49 | both tables have the same languages, so the two fallbacks apply to the same inputs |
| CodeSaver.ExtensionIdentifiesLanguage | ibhanwork/colour/app.py:28-37 | different supported languages have different extensions |
| CodeSaver.FileName | ibhanwork/colour/app.py:84 | the name starts with `code_`, ends with the language's extension, and is 20 characters longer than it |
| CodeSaver.SavePath | ibhanwork/colour/app.py:85 | the path is `saved_code/` followed by the file name |
| CodeSaver.SavePathLayout | ibhanwork/colour/app.py:80-85 | the path is `saved_code/code_`, then the 15-character timestamp, then the extension |
| CodeSaver.SavePathDeterminesInputs | ibhanwork/colour/app.py:82-85 | equal paths imply the same second and the same extension |
| CodeSaver.SameSecondSamePath | ibhanwork/colour/app.py:83-89 | two saves in one second with one extension get one path, so the second write overwrites the first |
| CodeSaver.CountNewlines | ibhanwork/colour/app.py:273 | the count of line breaks is 0 iff there is no line break |
| CodeSaver.LineCount | ibhanwork/colour/app.py:273 | the count is at least 1, and exactly 1 iff the code has no line break |
| CodeSaver.LineCountIsNumberOfLines | ibhanwork/colour/app.py:273 | the count equals the number of pieces `split('\n')` gives |
| CodeSaver.LineCountOfJoin | ibhanwork/colour/app.py:273 | two snippets joined by a line break have the sum of their line counts |
| CodeSaver.PreviewHeight | ibhanwork/colour/app.py:274 | the height is in [200, 800], and equals n·22 + 50 exactly when that is within the bounds |
| CodeSaver.PreviewHeightMonotone | ibhanwork/colour/app.py:274 | more lines never give a shorter preview |
| CodeSaver.PreviewHeightBreakpoints | ibhanwork/colour/app.py:274 | 6 lines or fewer give 200; 35 lines or more give 800 |
| CodeSaver.IsSpace | ibhanwork/colour/app.py:248 | the characters `strip()` removes are those for which `str.isspace()` holds: tab to carriage return, 0x1C–0x20, 0x85, 0xA0, 0x1680, 0x2000–0x200A, 0x2028, 0x2029, 0x202F, 0x205F and 0x3000 |
| CodeSaver.Strip | ibhanwork/colour/app.py:248 | the result is a slice of the input with only whitespace around it, and it neither starts nor ends with whitespace |
| CodeSaver.HasCode | ibhanwork/colour/app.py:248 | the guard `code_input.strip()` holds iff the code has at least one non-whitespace character (also used at line 265) |
| CodeSaver.BlankIffAllWhitespace | ibhanwork/colour/app.py:248 | stripping leaves nothing iff every character is whitespace |
| CodeSaver.ClickSave | ibhanwork/colour/app.py:247-256 | warns iff the code is blank; saves iff it is not blank and the write succeeds; the saved path holds the timestamp and the extension |
| CodeSaver.ClickHighlight | ibhanwork/colour/app.py:264-282 | renders iff the code is not blank; the lexer is `LexerName(language)` (`text` iff the language is unknown) and the height is `PreviewHeight(LineCount(code))`, so it lies in [200, 800] and grows with the number of `split('\n')` lines (LineCountIsNumberOfLines, PreviewHeightMonotone) |
| CodeSaver.WhitespaceIsRefused | ibhanwork/colour/app.py:247-282 | whitespace-only input makes both buttons warn, and nothing is saved or highlighted |

## Left out

- The framer-motion machinery is not modelled: spring transitions of the cursor markers, `useScroll`/`useTransform` parallax mapping, `useInView`, marquee and reveal animations. It lives in a library that is not part of this model and works with floats and timing. The markers' spring easing is out too; the model gives the targets they ease towards.
- Registering and removing the window listeners (`addEventListener`/`removeEventListener`) is host-environment plumbing. Handlers are taken to run one at a time. Pointer coordinates and scroll offsets are whole pixels; only the navigation bar's `scrollY` is a real number, because its comparison is the only place where fractions change the outcome.
- React's batching of `useState` updates is not modelled. A state update takes effect at once.
- The browser's clamping of `scrollLeft` to the scrollable range and the `scroll-smooth` animation are not modelled. The handler writes the raw value, and the model keeps that raw value.
- The nested "open" button's `stopPropagation` carries no state and is not modelled. Neither are static markup, the data arrays, the menu toggle and the fixed progress bar.
- In app.py: creating the folder, opening and writing the file, and reading the clock are I/O. The time is a parameter of `ClickSave`, and a failed write is the flag `writeSucceeds`. Pygments highlighting, the HTML template and the Streamlit widgets are foreign code. A highlighting exception (the `except` at line 279) is not modelled.
- Timestamp.Format: only years 1000 to 9999 are modelled. How `%Y` pads smaller years depends on the platform's C library.
- CodeSaver.SavePath: uses the POSIX separator `/` of `os.path.join`.
- CustomCursor.Closest: tag names are taken in lower case. HTML matches `a` and `button` case-insensitively.

# Concept-map analyser: a verified Dafny model of its core

The application sends a text to a chat-completion model, gets back a list of
"concepts" sorted into five abstraction levels (0 to 4), and draws them as an
interactive node-link map. This project models the logic inside that UI and
proves properties about it:

- **Canvas** (`canvas.dfy`, from `src/components/VisualizationCanvas.tsx`):
  - the concept graph;
  - mapping the 800 × 600 logical space onto the canvas;
  - resolving edge targets by id, labels at edge midpoints;
  - level colours with a fallback, truncated node names;
  - the view state (`scale`, `offset`, `isDragging`, `dragStart`,
    `showEffects`) with the zoom, reset, effects and pan-gesture handlers,
    as a class whose methods follow a pure transition function `Step`;
  - the click handler's first-match hit test (a `while` loop with early exit).
- **Request assembly** (`text_analysis.dfy`, from `src/lib/textAnalysis.ts`):
  - choosing stored or default prompts and configuration;
  - dropping `response_format` for models that are not listed;
  - building the message list (a loop that appends, proved against a
    specification function);
  - turning the reply into concepts or an error.
- **Training editor** (`prompt_training.dfy`, from
  `src/components/PromptTrainingPanel.tsx`): a class holding the example list,
  with append, JavaScript `splice` removal, field edits, reset and save.
- **Configuration editor** (`prompt_config.dfy`, from
  `src/components/PromptConfigPanel.tsx`): a class with initialisation from
  storage, reset to defaults, and save, which adds `response_format` only for
  the listed models. The lemma `SavedConfigSurvivesStripping` shows that what
  this panel saves passes the request builder's stripping unchanged.
- `settings.dfy` holds what these share: the defaults of
  `src/lib/promptConfig.ts`, the configuration and example records, and the
  "stored value or default" selection. `common.dfy` holds `Option` and `Result`.

Inputs that come from the browser are parameters:

- `localStorage` values;
- the canvas size and the pointer position;
- whether the API client exists;
- the reply's content and its JSON parser;
- the number parse and format functions.

A press and release without movement still selects: `mouseup` clears
`isDragging` before the browser delivers `click`, so that click hit-tests
(lemma `Canvas.PressReleaseThenClickHitTests`).

## Model

| member | source | states |
|---|---|---|
| `Settings.OrDefault` | src/lib/textAnalysis.ts:47-48 | JavaScript `or` on a stored value: it wins exactly when it is present and non-empty |
| `Canvas.DevicePosition` | src/components/VisualizationCanvas.tsx:94-97 | the device position is the logical position scaled by width/800 and height/600 |
| `Canvas.DevicePositionAtLogicalSize` | src/components/VisualizationCanvas.tsx:94-97 | on an 800 × 600 canvas device and logical positions coincide |
| `Canvas.DisplayName` | src/components/VisualizationCanvas.tsx:163-167 | a name over 15 characters becomes its first 12 plus "...", length 15; a shorter name is unchanged, and only then |
| `Canvas.LevelColor` | src/components/VisualizationCanvas.tsx:139 | levels 0..4 get their palette entry, any other level the fallback "#94A3B8" |
| `Canvas.FirstWithId` | src/components/VisualizationCanvas.tsx:91 | `find` by id: the first concept carrying the id, or none exactly when no concept carries it |
| `Canvas.EdgeFor` | src/components/VisualizationCanvas.tsx:91-108 | an edge is drawn exactly when some concept has the target id; it runs from the source's device position to the first concept with that id, as `find` returns it, carries the relationship as its label, and the label sits at the midpoint |
| `Canvas.EdgesFrom` | src/components/VisualizationCanvas.tsx:90-127 | one concept's edges: at most one per connection, all of them exactly when no connection dangles, all starting at the source, each labelled with a connection's relationship |
| `Canvas.EdgesFromMembers` | src/components/VisualizationCanvas.tsx:90-127 | one concept's edges are exactly the `EdgeFor` edges of its connections |
| `Canvas.EdgesFromInOrder` | src/components/VisualizationCanvas.tsx:90-127 | connections are drawn in list order: the edges of `a + b` are those of `a` followed by those of `b` |
| `Canvas.EdgesFromOne` | src/components/VisualizationCanvas.tsx:90-127 | a single connection draws its `EdgeFor` edge, or nothing when its target dangles |
| `Canvas.SceneEdges` | src/components/VisualizationCanvas.tsx:89-128 | the whole edge pass draws at most one edge per connection, and all of them exactly when no connection of any concept dangles |
| `Canvas.SceneEdgesMembers` | src/components/VisualizationCanvas.tsx:89-128 | the edge pass draws exactly the `EdgeFor` edges of every connection of every concept |
| `Canvas.SceneEdgesInOrder` | src/components/VisualizationCanvas.tsx:89-128 | concepts are drawn in list order: the edges of `a + b` are those of `a` followed by those of `b` |
| `Canvas.SceneEdgesOne` | src/components/VisualizationCanvas.tsx:89-128 | one concept contributes the edges of its own connections, in their order |
| `Canvas.SelfLoopEdge` | src/components/VisualizationCanvas.tsx:91-108 | with unique ids, a connection to the concept's own id is a zero-length edge labelled on the node |
| `Canvas.ZoomedIn` | src/components/VisualizationCanvas.tsx:208-210 | zoom-in gives the smaller of scale + 0.1 and 2; from a scale in [0.5, 2] it stays in range and never lowers the scale |
| `Canvas.ZoomedOut` | src/components/VisualizationCanvas.tsx:212-214 | zoom-out gives the larger of scale − 0.1 and 0.5; from a scale in [0.5, 2] it stays in range and never raises the scale |
| `Canvas.RunKeepsScaleInRange` | src/components/VisualizationCanvas.tsx:208-260 | from a scale in [0.5, 2], any sequence of handlers keeps the scale in [0.5, 2] |
| `Canvas.ZoomRunsAreMonotone` | src/components/VisualizationCanvas.tsx:208-214 | a run of zoom-ins never lowers the scale; a run of zoom-outs never raises it |
| `Canvas.ResetRestoresView` | src/components/VisualizationCanvas.tsx:216-219 | reset gives scale 1 and offset (0, 0) from any state and changes nothing else |
| `Canvas.IgnoredPointerEvents` | src/components/VisualizationCanvas.tsx:237-252 | a non-primary press, and a move while not dragging, change nothing |
| `Canvas.DragFollowsPointer` | src/components/VisualizationCanvas.tsx:237-252 | after a primary press, a move shifts the offset by exactly the pointer's displacement; moving back to the press point restores the old offset |
| `Canvas.ReleaseEndsDrag` | src/components/VisualizationCanvas.tsx:254-260 | mouse-up and mouse-leave both clear only `isDragging` |
| `Canvas.Unproject` | src/components/VisualizationCanvas.tsx:271-272 | undoing pan and zoom is the inverse of the view transform `offset + scale · p` |
| `Canvas.FirstHit` | src/components/VisualizationCanvas.tsx:275-289 | the first concept in list order within distance 35 of the point, and none exactly when no concept is |
| `Canvas.HitTest` | src/components/VisualizationCanvas.tsx:275-289 | the loop with `break` returns the first concept within distance 35, or none when no concept is |
| `Canvas.Selection` | src/components/VisualizationCanvas.tsx:262-290 | no selection while dragging or with no concepts; a selected id is that of the first concept, in list order, hit by the unprojected pointer; no selection otherwise means no concept is hit |
| `Canvas.PressReleaseThenClickHitTests` | src/components/VisualizationCanvas.tsx:237-264 | after press and release the drag flag is clear, so the click hit-tests with the unchanged view |
| `Canvas.ClickOnCentredConcept` | src/components/VisualizationCanvas.tsx:262-290 | a concept at logical (400, 300) on an 800 × 600 canvas at the initial view is selected by a click at (400, 300) |
| `Canvas.CanvasView.constructor` | src/components/VisualizationCanvas.tsx:33-37 | initial view: scale 1, offset and drag start (0, 0), not dragging, effects off |
| `Canvas.CanvasView.HandleZoomIn` | src/components/VisualizationCanvas.tsx:208-210 | the state follows `Step(_, ZoomIn)`; the scale stays in range and does not drop |
| `Canvas.CanvasView.HandleZoomOut` | src/components/VisualizationCanvas.tsx:212-214 | the state follows `Step(_, ZoomOut)`; the scale stays in range and does not rise |
| `Canvas.CanvasView.HandleReset` | src/components/VisualizationCanvas.tsx:216-219 | scale 1 and offset (0, 0); the drag and effects fields are unchanged |
| `Canvas.CanvasView.HandleToggleEffects` | src/components/VisualizationCanvas.tsx:221-223 | flips `showEffects` only |
| `Canvas.CanvasView.HandleMouseDown` | src/components/VisualizationCanvas.tsx:237-243 | button 0 starts dragging with `dragStart = pointer − offset`; any other button changes nothing |
| `Canvas.CanvasView.HandleMouseMove` | src/components/VisualizationCanvas.tsx:245-252 | while dragging, `offset = pointer − dragStart`; otherwise nothing changes |
| `Canvas.CanvasView.HandleMouseUp` | src/components/VisualizationCanvas.tsx:254-256 | clears `isDragging` only |
| `Canvas.CanvasView.HandleMouseLeave` | src/components/VisualizationCanvas.tsx:258-260 | clears `isDragging` only |
| `Canvas.CanvasView.HandleCanvasClick` | src/components/VisualizationCanvas.tsx:262-290 | the selected id is the `Selection` for the pointer taken relative to the canvas |
| `TextAnalysis.StripResponseFormat` | src/lib/textAnalysis.ts:53-69 | `response_format` is removed when the model is not one of the five listed, kept when it is, and every other field is copied |
| `TextAnalysis.StripIsIdempotent` | src/lib/textAnalysis.ts:53-69 | stripping twice equals stripping once; a format survives only for a listed model |
| `TextAnalysis.UsableExamples` | src/lib/textAnalysis.ts:80-93 | the examples used are drawn from the list, all with both fields non-empty, and are no more than the list holds |
| `TextAnalysis.UsableExamplesCounts` | src/lib/textAnalysis.ts:80-93 | every example whose input and output are both non-empty is kept, as often as it occurs; no other example is |
| `TextAnalysis.UsableExamplesInOrder` | src/lib/textAnalysis.ts:80-93 | the usable examples keep their list order: those of `a + b` are those of `a` followed by those of `b` |
| `TextAnalysis.UsableExamplesOne` | src/lib/textAnalysis.ts:80-93 | a single example is kept exactly when its input and output are both non-empty |
| `TextAnalysis.ExampleMessagesArePairs` | src/lib/textAnalysis.ts:80-93 | the few-shot messages are, in order, a user turn with the input then an assistant turn with the wrapped output for each example whose fields are both non-empty |
| `TextAnalysis.ExampleMessagesHaveNoSystem` | src/lib/textAnalysis.ts:80-93 | no few-shot message has the system role |
| `TextAnalysis.FinalPrompt` | src/lib/textAnalysis.ts:96-101 | a non-empty custom prompt gives `customPrompt + "\n\n" + text`; otherwise `analysisPrompt + text` |
| `TextAnalysis.ConversationShape` | src/lib/textAnalysis.ts:72-101 | exactly one system message, first; 2 + 2 × (usable examples) messages; the pairs in order; a final user message with the request |
| `TextAnalysis.BuildMessages` | src/lib/textAnalysis.ts:72-101 | the loop that pushes messages builds exactly the specified conversation |
| `TextAnalysis.ChosenConfig` | src/lib/textAnalysis.ts:49-51 | no stored config gives the default; unparsable JSON is an error; a parsed config is used as is |
| `TextAnalysis.PrepareRequest` | src/lib/textAnalysis.ts:35-101 | a missing client fails before anything else; unparsable stored config fails next; otherwise the request carries the stripped chosen config and the conversation built from the non-empty stored prompts or the defaults |
| `TextAnalysis.DefaultConfigIsSentWhole` | src/lib/textAnalysis.ts:49-69 | the default configuration passes stripping unchanged and keeps its JSON format |
| `TextAnalysis.InterpretReply` | src/lib/textAnalysis.ts:108-117 | absent or empty content is an error, unparsable content is an error, a reply without `concepts` yields the empty list |
| `PromptTraining.Appended` | src/components/PromptTrainingPanel.tsx:33-35 | one empty example is added at the end; earlier entries are unchanged |
| `PromptTraining.Spliced` | src/components/PromptTrainingPanel.tsx:37-41 | an in-range index deletes exactly that entry and the rest keep their order; an index past the end removes nothing; a negative one removes one entry |
| `PromptTraining.SplicedFromEnd` | src/components/PromptTrainingPanel.tsx:37-41 | a negative index −k removes the k-th entry from the end, as `splice` does |
| `PromptTraining.RemoveUndoesAdd` | src/components/PromptTrainingPanel.tsx:33-41 | removing the entry just added restores the list |
| `PromptTraining.WithInput` | src/components/PromptTrainingPanel.tsx:43-47 | only `examples[i].input` changes; length and all other fields are unchanged |
| `PromptTraining.WithOutput` | src/components/PromptTrainingPanel.tsx:49-53 | only `examples[i].output` changes; length and all other fields are unchanged |
| `PromptTraining.EditsAreReversible` | src/components/PromptTrainingPanel.tsx:43-53 | writing back the old text undoes an input or output edit |
| `PromptTraining.OfferedEditsKeepAnExample` | src/components/PromptTrainingPanel.tsx:114-127 | since the remove control is shown only with more than one example, the panel's own controls never leave the list empty |
| `PromptTraining.TrainingPanel.constructor` | src/components/PromptTrainingPanel.tsx:27-31 | empty custom prompt, switch off, exactly one empty example |
| `PromptTraining.TrainingPanel.HandleAddExample` | src/components/PromptTrainingPanel.tsx:33-35 | the list gains one empty example at the end; the prompt fields are unchanged |
| `PromptTraining.TrainingPanel.HandleRemoveExample` | src/components/PromptTrainingPanel.tsx:37-41 | the list becomes its `splice(index, 1)`; the prompt fields are unchanged |
| `PromptTraining.TrainingPanel.HandleExampleInputChange` | src/components/PromptTrainingPanel.tsx:43-47 | succeeds exactly for an existing index and then changes only that input; otherwise (where the source throws) nothing changes |
| `PromptTraining.TrainingPanel.HandleExampleOutputChange` | src/components/PromptTrainingPanel.tsx:49-53 | succeeds exactly for an existing index and then changes only that output; otherwise nothing changes |
| `PromptTraining.TrainingPanel.HandleReset` | src/components/PromptTrainingPanel.tsx:55-59 | empty custom prompt, switch off, one empty example |
| `PromptTraining.TrainingPanel.SetCustomPrompt` | src/components/PromptTrainingPanel.tsx:180 | sets the custom prompt only |
| `PromptTraining.TrainingPanel.SetUseCustomPrompt` | src/components/PromptTrainingPanel.tsx:168 | sets the switch only |
| `PromptTraining.TrainingPanel.HandleSave` | src/components/PromptTrainingPanel.tsx:61-67 | hands over the custom prompt, the examples and the switch exactly as held |
| `PromptConfig.WhitelistsAgree` | src/components/PromptConfigPanel.tsx:61-67 | the panel's model list equals the request builder's, so both membership tests agree |
| `PromptConfig.BuildModelConfig` | src/components/PromptConfigPanel.tsx:69-83 | the built config has `{type: "json_object"}` exactly for a listed model and carries the model and numbers given |
| `PromptConfig.SavedConfigSurvivesStripping` | src/components/PromptConfigPanel.tsx:61-83 | a config built by save passes the request builder's stripping unchanged |
| `PromptConfig.ResetThenSaveRebuildsDefaults` | src/components/PromptConfigPanel.tsx:51-83 | saving the reset fields rebuilds the default configuration, JSON format included |
| `PromptConfig.ConfigPanel.constructor` | src/components/PromptConfigPanel.tsx:30-49 | non-empty stored prompts win over the defaults; a stored config supplies model and numbers, otherwise the defaults do |
| `PromptConfig.ConfigPanel.HandleReset` | src/components/PromptConfigPanel.tsx:51-57 | all five editable fields take the default values |
| `PromptConfig.ConfigPanel.HandleSave` | src/components/PromptConfigPanel.tsx:59-90 | hands over both prompts as held and the config built from the model and the parsed numbers |
| `PromptConfig.ConfigPanel.SetSystemPrompt` | src/components/PromptConfigPanel.tsx:122 | sets the system prompt only |
| `PromptConfig.ConfigPanel.SetAnalysisPrompt` | src/components/PromptConfigPanel.tsx:136 | sets the analysis prompt only |
| `PromptConfig.ConfigPanel.SetModel` | src/components/PromptConfigPanel.tsx:153 | sets the model only |
| `PromptConfig.ConfigPanel.SetTemperature` | src/components/PromptConfigPanel.tsx:170 | sets the temperature text only |
| `PromptConfig.ConfigPanel.SetMaxTokens` | src/components/PromptConfigPanel.tsx:187 | sets the token-limit text only |

## Left out

- Canvas drawing (`ctx` calls, text measurement, the glow gradient) is not modelled. The model stops at what the draw pass computes: positions, edges, label points, colours and display names.
- The resize listener and DOM measurement are not modelled. The canvas width and height and the canvas's page corner are parameters.
- PNG export is browser I/O and is not modelled.
- Floating point is not modelled. Coordinates and the scale are `real`, so repeated 0.1 zoom steps do not accumulate rounding. The distance test compares squared distances with 35², which for non-negative values is the same as `Math.sqrt(...) <= 35`.
- Canvas.LevelColor: the level is an integer. A fractional JavaScript level, which also reads `undefined` and falls back, is not represented.
- Canvas.DisplayName: string lengths count Unicode scalar values. JavaScript counts UTF-16 code units, so names with characters outside the Basic Multilingual Plane are not covered.
- Canvas.CanvasView.HandleCanvasClick: the `canvasRef` null check is not modelled. When concepts exist the canvas is always mounted.
- The loading and empty placeholder views are JSX only. The empty case is covered by `Selection` returning nothing for an empty list.
- Logging (`console.log` and `console.error`) is not modelled. It has no effect on the values computed.
- The completion call is not modelled. The reply's content and the JSON parser of the reply are inputs of `InterpretReply`.
- `localStorage` reads are not modelled. Their values are inputs; only the `||` and `? :` selections are modelled.
- TextAnalysis.ChosenConfig: a stored configuration is a fixed record of model, temperature, token limit and format. Any other keys a stored JSON object might carry are not represented.
- PromptConfig.ConfigPanel.constructor: requires a stored configuration that parses. With unparsable JSON the source's render throws and the panel never mounts. A stored object missing `temperature` or `max_tokens` also makes `toString` throw; this is not represented.
- `parseFloat`, `parseInt` and `toString` are library numerics. They are function parameters.
- PromptTraining.TrainingPanel.HandleExampleInputChange: the copy `[...examples]` is shallow, so the source also mutates the example object shared with the previous state. The model works on values and does not capture that aliasing. The same holds for `HandleExampleOutputChange`.
- The prompt text defaults of `src/lib/promptConfig.ts` are opaque constants. The default model configuration is given by its literal values.
- `src/lib/openai.ts`, `src/lib/env.ts`, `src/main.tsx` and the other components are not part of this model. They are client set-up, environment lookups, bootstrap and UI composition.

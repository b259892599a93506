# TapCanvas answer node, modelled in Dafny

TapCanvas's backend agent is a LangGraph graph. Its `finalize_answer` node
asks a model (OpenAI's streaming Responses API, or Gemini) for the turn's
answer, which comes with a batch of *canvas tool calls*: `createNode`,
`updateNode`, `connectNodes` and `runNode`. Before the batch reaches the
client, the node rewrites it deterministically:

1. two screens run first. A request for story directions is answered with
   direction buttons instead of nodes, and the supervisor gate
   (`allow_canvas_tools is False`) drops the batch and offers fixed quick
   replies;
2. on a continuation turn that introduces a character, the batch is cut down
   to that character's sheet until the user confirms;
3. `textToImage` creates become `image`, and a `composeVideo` create without a
   prompt gets one composed from its structured config;
4. a storyboard create is linked to up to three scored reference images from
   the canvas, and gets a 15-second video chained behind it;
5. with reference wording, every new image is connected from the latest
   finished canvas image;
6. runs of videos created in the same batch are dropped, and every created
   image without a run gets one appended.

Finally the node emits the message. A blank answer is replaced by a summary
of the batch. A fenced `tapcanvas_actions` block in the answer is cut out and
becomes the quick replies. Short citation URLs are expanded, and failures
surface as fixed error texts with an error payload.

The project also covers the helpers this node relies on:
- the stream reducer that assembles text and tool calls from streaming events;
- the video-prompt composer;
- the batch summary;
- the OpenAI error summary;
- the substring fallback that picks a role when structured output fails;
- the AutoRAG result normaliser.

Tool calls are values (`Calls.ToolCall`: id, name, JSON arguments).
JSON values are a small datatype (`Json.Json`), and Python truthiness and
`a or b` are written out. A pass over the batch is a function `Pass` that
either continues with the new batch or raises (`Raise(batch, exception
class)`), keeping the batch as it stood when the exception fired. Each
Python loop is a method with a `while` loop, proved equal to a recursive
specification function, and the properties are lemmas about those
functions. The node as written is `Finalize.FinalizeAnswerAsWritten`;
`Finalize.FinalizeAnswer` is the corrected reading that keeps earlier quick
replies (see "## Findings"). `Finalize.GateClosesMessage` is proved for the
corrected reading only.

External pieces are parameters:
- `json.loads` is `parse: string -> Option<Json>` (`None` where it raises);
- `json.dumps`, float formatting and `normalize_role_id` are parameters too;
- `role_map()` is `Roles.Registry`;
- the provider's answer is `Finalize.Provider`.

Where code and documentation disagree, the model follows the code. Behaviours
that look unintended are reproduced, and each has a lemma:
- the continuity pass's stale indices can put a connect ahead of its target's
  create (`Continuity.StaleIndexCounterexample`);
- a label created twice gets two automatic runs (`Sequencing.DuplicateAutoRuns`);
- the insertion-point adjustment at graph.py:1480-1481 never fires
  (`Storyboard.AdjustmentNeverApplies`);
- the user's storyboard wording never changes the storyboard pass
  (`Storyboard.UserWordingIsRedundant`);
- the existing-pair test of the continuity pass never decides anything
  (`Continuity.PairTestRedundant`);
- the freeform fallback of the prompt composer is unreachable
  (`ComposePrompt.ComposeStartsWithHeader`).

One behaviour is a plain loss of data and is logged under "Findings".

## Model

| member | source | states |
|---|---|---|
| Finalize.RunPasses | apps/ai-fullstack/backend/src/agent/graph.py:1336-1711 | The passes after the confirmation, run one method per pass in the source's order and stopping at the first that raises, compute exactly `Rewrite`. |
| Finalize.RewriteCreatesOk | apps/ai-fullstack/backend/src/agent/graph.py:1336-1711 | If every create in the batch has readable arguments and the passes get through, every create in the rewritten batch still has readable arguments. |
| Finalize.RewriteEmpty | apps/ai-fullstack/backend/src/agent/graph.py:1336-1711 | No pass makes a call out of an empty batch. |
| Finalize.RunCanvasTurn | apps/ai-fullstack/backend/src/agent/graph.py:1185-1711 | After the stream: the two screens, then the confirmation and the passes only for a non-empty batch, equal to `CanvasTurn`. |
| Finalize.ScreenedBatchStaysEmpty | apps/ai-fullstack/backend/src/agent/graph.py:1225-1248 | A batch the screens empty stays empty, with the screens' text and replies, because every later pass sits under `if tool_calls_payload:`; with `allow_canvas_tools` false the turn ends with no calls, non-blank text and some quick replies. |
| Finalize.CanvasTurnCreatesOk | apps/ai-fullstack/backend/src/agent/graph.py:1248-1711 | Whatever batch gets through the turn has readable create arguments. |
| Finalize.KeptCreatesOk | apps/ai-fullstack/backend/src/agent/graph.py:1270-1318 | The batch the confirmation lets through has readable create arguments, because it only keeps calls of the batch it read. |
| Finalize.ErrorPayload | apps/ai-fullstack/backend/src/agent/graph.py:1713-1715 | The `{"type", "message"}` error payload. |
| Finalize.ErrorTextsNotBlank | apps/ai-fullstack/backend/src/agent/graph.py:1713-1728 | The three failure texts (missing key, OpenAI error with its summary, runtime error) are never blank. |
| Finalize.GenerateFailures | apps/ai-fullstack/backend/src/agent/graph.py:1167-1738 | Any failure answers with non-blank text. Gemini and the two OpenAI failures leave no batch and no replies. A runtime error carries the class of the pass that raised and the batch as it stood. A successful stream leaves a batch with readable creates. |
| Finalize.FinishSpec | apps/ai-fullstack/backend/src/agent/graph.py:1741-1779 | The message is built exactly when the answer is non-blank, or the batch is empty, or the batch's creates are readable. Its fields: the normalized role id; the state's reason, or "根据对话意图选择。"; `tool_calls` exactly when the batch is non-empty; `llm_error` exactly when the payload is non-empty; `quick_replies` never an empty list. The as-written and corrected readings agree on everything except the replies. |
| Finalize.FinishKeepsReplies | apps/ai-fullstack/backend/src/agent/graph.py:1745-1746 | Take a non-blank answer without an actions block, and quick replies set earlier. The corrected reading keeps those replies; the as-written reading drops them. |
| Finalize.FinalizeAnswers | apps/ai-fullstack/backend/src/agent/graph.py:1081-1779 | The node never raises after the provider step. It carries the provider step's batch exactly when that batch is non-empty. A missing key gives the `ValueError` payload and no calls. An OpenAI error gives its payload whenever the payload is non-empty. |
| Finalize.GateClosesOutcome | apps/ai-fullstack/backend/src/agent/graph.py:1225-1248 | With `allow_canvas_tools` false, the streamed turn has no calls, no error, non-blank content and quick replies. |
| Finalize.GateClosesMessage | apps/ai-fullstack/backend/src/agent/graph.py:1225-1765 | With `allow_canvas_tools` false, the (corrected) message has no `tool_calls` and does have `quick_replies`. |
| Finalize.GateRepliesLost | apps/ai-fullstack/backend/src/agent/graph.py:1225-1246 | With the gate closed, not a request for directions, and a non-blank answer without an actions block: the gate sets its three buttons. As written, the message has no quick replies; corrected, it has the gate's buttons. |
| Gating.FindLastUserText | apps/ai-fullstack/backend/src/agent/graph.py:1187-1194 | The loop over the reversed messages returns the `LastUserText` function. |
| Gating.LastUserTextSpec | apps/ai-fullstack/backend/src/agent/graph.py:1187-1194 | The text is "" when no message is from the user. Otherwise it is the content of the last user message, with no user message after it. |
| Gating.GateClosesCanvas | apps/ai-fullstack/backend/src/agent/graph.py:1225-1244 | With `allow_canvas_tools` false (after the direction screen): the batch is empty, the quick replies are non-empty, and the text is non-blank. |
| Gating.GateOpen | apps/ai-fullstack/backend/src/agent/graph.py:1225-1226 | Any value other than `False` (missing, `None`, `True`, ...) passes the turn through unchanged. |
| Gating.StoryDirectionsOffered | apps/ai-fullstack/backend/src/agent/graph.py:1195-1222 | A request for directions with an answer lacking `tapcanvas_actions` has no calls, the four direction buttons and the fixed prompt text. |
| Gating.GateTextNotBlank | apps/ai-fullstack/backend/src/agent/graph.py:1222-1244 | The gate's and the directions' fixed texts are not blank. |
| Gating.ScanCreates | apps/ai-fullstack/backend/src/agent/graph.py:1270-1290 | The scan of creates fails exactly when some create has unreadable arguments. Otherwise it returns the labels of the created images in order, and whether there is a nine-grid storyboard create. |
| Gating.GridUpToSpec | apps/ai-fullstack/backend/src/agent/graph.py:1285-1290 | The grid flag holds exactly when some create is a storyboard grid. |
| Gating.NewCharacterLabelsSpec | apps/ai-fullstack/backend/src/agent/graph.py:1292-1299 | A label is new exactly when it was created and is not on the canvas. |
| Gating.KeepNewCharacterSpec | apps/ai-fullstack/backend/src/agent/graph.py:1303-1318 | The filter keeps exactly the calls of the batch that are creates or runs of a new character, as a subsequence of the batch. |
| Gating.KeepNewCharacterCalls | apps/ai-fullstack/backend/src/agent/graph.py:1303-1318 | The filtering loop computes `KeepNewCharacter`. |
| Gating.NewCharacterGateSpec | apps/ai-fullstack/backend/src/agent/graph.py:1251-1334 | If the pass gets through, the creates were readable; outside a confirmation the turn is untouched. Within one, a call is kept exactly when it is in the batch and belongs to a new character, the kept calls keep their order, and the confirmation text and buttons are set. |
| Gating.NewCharacterPass | apps/ai-fullstack/backend/src/agent/graph.py:1251-1334 | The imperative pass equals `NewCharacterGate`. |
| Canvas.CollectCanvasLabels | apps/ai-fullstack/backend/src/agent/graph.py:1251-1264 | The loop collects the specification set of canvas labels. |
| Canvas.CanvasLabelsSpec | apps/ai-fullstack/backend/src/agent/graph.py:1251-1264 | A label is a canvas label exactly when some canvas node is a dict with that stripped, non-empty label. |
| Canvas.NodeLabel | apps/ai-fullstack/backend/src/agent/graph.py:1261-1263 | A node's label is its stripped non-empty `label` string. |
| Canvas.ReferenceScore | apps/ai-fullstack/backend/src/agent/graph.py:1433-1439 | A candidate's score is 0, 2, 3 or 5, and it is at least 3 exactly when the label names a character sheet. |
| Canvas.Insert | apps/ai-fullstack/backend/src/agent/graph.py:1441 | Inserting a candidate adds exactly that candidate. |
| Canvas.InsertSorted | apps/ai-fullstack/backend/src/agent/graph.py:1441 | Inserting into a list sorted by (score, index) descending keeps it sorted. |
| Canvas.SortDescSpec | apps/ai-fullstack/backend/src/agent/graph.py:1441 | The sort gives a permutation sorted by (score, index) descending. |
| Canvas.Top3 | apps/ai-fullstack/backend/src/agent/graph.py:1442 | `[:3]` is the prefix of length min(3, n). |
| Canvas.LabelsOf | apps/ai-fullstack/backend/src/agent/graph.py:1442 | The labels of the candidates, position by position. |
| Canvas.PickedAtMostThree | apps/ai-fullstack/backend/src/agent/graph.py:1405-1443 | At most three references are picked. |
| Canvas.PickedEligible | apps/ai-fullstack/backend/src/agent/graph.py:1405-1443 | Each picked label belongs to a canvas node that is an image, text-to-image or mosaic, with status `success` and a non-empty `imageUrl`. The label is not the storyboard's and has no storyboard or video keyword. |
| Canvas.PickedOrdered | apps/ai-fullstack/backend/src/agent/graph.py:1405-1443 | The picks are the first three candidates sorted by (score, index) descending. No candidate left out ranks above one picked. |
| Canvas.NodeCandidate | apps/ai-fullstack/backend/src/agent/graph.py:1415-1436 | One node's candidate equals the specification. |
| Canvas.ScoreReference | apps/ai-fullstack/backend/src/agent/graph.py:1433-1439 | The score is `ReferenceScore` of the label: 3 for character wording, plus 2 for fox or rabbit wording. |
| Canvas.CollectCandidates | apps/ai-fullstack/backend/src/agent/graph.py:1414-1439 | The loop collects the candidate of every eligible node, in node order. |
| Canvas.PickReferenceLabels | apps/ai-fullstack/backend/src/agent/graph.py:1405-1443 | The loop and sort compute `PickedReferences`. |
| Canvas.LatestCandidate | apps/ai-fullstack/backend/src/agent/graph.py:1568-1585 | A node qualifies as upstream only if it is a finished image labelled without a storyboard keyword. |
| Canvas.LatestUpToSpec | apps/ai-fullstack/backend/src/agent/graph.py:1568-1585 | The upstream image is the last qualifying node, and no node after it qualifies. With none, nothing qualifies. |
| Canvas.PickLatestSuccessImageLabel | apps/ai-fullstack/backend/src/agent/graph.py:1568-1585 | The reversed scan computes `LatestSuccessImage`. |
| Canvas.ReadLatestCandidate | apps/ai-fullstack/backend/src/agent/graph.py:1569-1584 | One node gives its stripped label exactly when it is a finished image that is not a storyboard, with a non-blank `imageUrl`. |
| Normalize.NormalizeImageCallSpec | apps/ai-fullstack/backend/src/agent/graph.py:1337-1347 | A `textToImage` create becomes `image`, and its config kind `textToImage` becomes `image`. Every other argument, the id and the name are kept; a call of any other type is untouched. |
| Normalize.NormalizedImagesSpec | apps/ai-fullstack/backend/src/agent/graph.py:1336-1347 | After normalization no create has type `textToImage`. No call is added or removed; ids, names and the other calls are kept; readable arguments stay readable. |
| Normalize.NormalizedImages | apps/ai-fullstack/backend/src/agent/graph.py:1336-1347 | The pass keeps the batch's length. |
| Normalize.NormalizedImagesIdempotent | apps/ai-fullstack/backend/src/agent/graph.py:1336-1347 | Normalizing twice is normalizing once. |
| Normalize.NormalizeImages | apps/ai-fullstack/backend/src/agent/graph.py:1336-1347 | The loop computes `NormalizedImages`. |
| Normalize.ComposePromptCallSpec | apps/ai-fullstack/backend/src/agent/graph.py:1349-1366 | A `composeVideo` create with a structured config and no prompt gets the composed prompt: it starts with the header, is not blank, and the call no longer needs one. Everything else is kept. |
| Normalize.ComposedPromptsSpec | apps/ai-fullstack/backend/src/agent/graph.py:1349-1366 | After the pass no call needs a prompt. Ids, names and the calls that needed none are kept, and readable arguments stay readable. |
| Normalize.ComposedPrompts | apps/ai-fullstack/backend/src/agent/graph.py:1349-1366 | The pass keeps the batch's length. |
| Normalize.ComposePromptOf | apps/ai-fullstack/backend/src/agent/graph.py:1352-1366 | One call's rewrite equals `ComposePromptCall`. |
| Normalize.ComposePrompts | apps/ai-fullstack/backend/src/agent/graph.py:1349-1366 | The loop computes `ComposedPrompts`. |
| ComposePrompt.ComposeStartsWithHeader | apps/ai-fullstack/backend/src/agent/graph.py:269-352 | The composed prompt always starts with the fixed header line, so it is never empty and the freeform fallback at graph.py:348-351 is unreachable. |
| ComposePrompt.HeaderNotBlank | apps/ai-fullstack/backend/src/agent/graph.py:280 | A text opening with the header is not blank. |
| ComposePrompt.Compose | apps/ai-fullstack/backend/src/agent/graph.py:269-352 | The imperative composer computes `ComposeFromConfig` and starts with the header. |
| ComposePrompt.Parts | apps/ai-fullstack/backend/src/agent/graph.py:279-342 | The parts list starts with the header. |
| ComposePrompt.CharacterLinesFollowHeading | apps/ai-fullstack/backend/src/agent/graph.py:295-312 | With characters present, the character lines appear in input order, right after a blank line and the character heading. |
| ComposePrompt.Labelled | apps/ai-fullstack/backend/src/agent/graph.py:286-293 | A labelled line appears exactly when its field has non-blank text, and it is that text after the label. |
| ComposePrompt.MetaBits | apps/ai-fullstack/backend/src/agent/graph.py:281-289 | A duration bit exactly for a numeric duration, then an FPS bit exactly for a numeric `fps`, then an aspect bit exactly for a non-blank aspect, each with its own text; the style is a separate part. |
| ComposePrompt.CharacterLineOfSpec | apps/ai-fullstack/backend/src/agent/graph.py:301-312 | A character line exists exactly when one of name, ref or notes is present. With a name, the line starts with `- name`. |
| ComposePrompt.CharacterLineSpec | apps/ai-fullstack/backend/src/agent/graph.py:298-312 | A character entry gives a line exactly when it is a dict with a non-blank name, reference or notes. With a name, the line starts with `- name`. |
| ComposePrompt.CharacterLines | apps/ai-fullstack/backend/src/agent/graph.py:295-312 | The loop gives the character lines in input order and skips absent ones. |
| ComposePrompt.ShotSegments | apps/ai-fullstack/backend/src/agent/graph.py:320-341 | A shot line has between one and six segments, and the first is the header: the id (or `S<n>`) with the time range. |
| ComposePrompt.ShotSegmentsSpec | apps/ai-fullstack/backend/src/agent/graph.py:328-341 | After the header there is one segment per non-blank field; each such field's segment is its prefix and stripped text, placed after the segments of the non-blank fields before it in the fixed order. |
| ComposePrompt.ShotLine | apps/ai-fullstack/backend/src/agent/graph.py:317-342 | A shot gives a line exactly when it is a dict. |
| ComposePrompt.ShotLineStartsWithId | apps/ai-fullstack/backend/src/agent/graph.py:317-342 | A shot line starts with `- ` and the shot's id, or `S<n>` when it has none. |
| ComposePrompt.ShotLines | apps/ai-fullstack/backend/src/agent/graph.py:314-342 | The loop gives the shot lines in input order. |
| ComposePrompt.ComposeShotLine | apps/ai-fullstack/backend/src/agent/graph.py:318-342 | One shot gives `ShotLineAt`: a line exactly when it is a dict. |
| Storyboard.DetectFromSpec | apps/ai-fullstack/backend/src/agent/graph.py:1380-1399 | The scan stops at the first image create it does not pass over. It finds a storyboard create there, or raises `TypeError` on an unreadable hint, or finds nothing when every call was passed over. |
| Storyboard.DetectStoryboard | apps/ai-fullstack/backend/src/agent/graph.py:1380-1399 | The detection loop computes `DetectFrom`. |
| Storyboard.UserWordingIsRedundant | apps/ai-fullstack/backend/src/agent/graph.py:1371-1374 | The storyboard label does not depend on the user's wording: it is present exactly when a labelled storyboard create was found. |
| Storyboard.LocateFromSpec | apps/ai-fullstack/backend/src/agent/graph.py:1464-1478 | The storyboard's run is the first run of its label, with no earlier run of it and every earlier run readable. The create comes before the insertion point. An unreadable run before it raises. |
| Storyboard.LocateStoryboard | apps/ai-fullstack/backend/src/agent/graph.py:1464-1478 | The locate loop computes `LocateFrom`. |
| Storyboard.AdjustmentNeverApplies | apps/ai-fullstack/backend/src/agent/graph.py:1479-1481 | The insertion point is the storyboard's run index when there is one, else the end; the `insert_at <= create_idx` adjustment never fires. |
| Storyboard.Splice | apps/ai-fullstack/backend/src/agent/graph.py:1499-1500 | The slice insertion adds exactly the block. |
| Storyboard.RefConnectsSpec | apps/ai-fullstack/backend/src/agent/graph.py:1483-1498 | The block connects each picked reference to the storyboard, out-image-wide to in-image-wide. It skips pairs the batch already connects. |
| Storyboard.BuildRefConnects | apps/ai-fullstack/backend/src/agent/graph.py:1483-1498 | The loop builds `RefConnects`. |
| Storyboard.LinkSpec | apps/ai-fullstack/backend/src/agent/graph.py:1450-1500 | Once references are picked, linking splices the block into the batch as one contiguous piece, keeping the existing calls in order. The piece goes at the storyboard's run when there is one, with no earlier run of it, and at the end otherwise. |
| Storyboard.LinkAdds | apps/ai-fullstack/backend/src/agent/graph.py:1450-1500 | Linking adds exactly the block of new reference connections. |
| Storyboard.LinkRaises | apps/ai-fullstack/backend/src/agent/graph.py:1450-1478 | Linking raises `AttributeError` only when references were picked and some connect or run has unreadable arguments. It then leaves the batch as it was. |
| Storyboard.LinkStoryboardReferences | apps/ai-fullstack/backend/src/agent/graph.py:1445-1500 | The imperative linking equals `Link`. |
| Storyboard.VideoLabelSpec | apps/ai-fullstack/backend/src/agent/graph.py:1503-1505 | The video's label always contains the video suffix. Without `分镜` in the label, it is the label plus `-` and the suffix. |
| Storyboard.StoryboardHintSpec | apps/ai-fullstack/backend/src/agent/graph.py:1506-1524 | The video prompt starts with its fixed body. The hint is empty exactly when the storyboard prompt is absent or blank; otherwise it starts with its heading and is bounded in length. |
| Storyboard.ChainSpec | apps/ai-fullstack/backend/src/agent/graph.py:1502-1552 | Chaining appends exactly a composeVideo create with the fixed 15 s 16:9 config and a connect from the storyboard to it. The batch before them is unchanged. |
| Storyboard.StoryboardPassSpec | apps/ai-fullstack/backend/src/agent/graph.py:1368-1552 | Without a labelled storyboard create, the batch is untouched. With one, the references are linked and the video is chained when the batch had no composeVideo. Either way it then has a composeVideo. |
| Storyboard.ChainAfterHasVideo | apps/ai-fullstack/backend/src/agent/graph.py:1502-1552 | When linking kept every call of the batch, the video is chained exactly when the batch had no `composeVideo`. Either way the result has one. |
| Storyboard.StoryboardStep | apps/ai-fullstack/backend/src/agent/graph.py:1368-1552 | The imperative pass equals `StoryboardPass`. |
| Storyboard.StoryboardPassCreatesOk | apps/ai-fullstack/backend/src/agent/graph.py:1368-1552 | The storyboard pass keeps create arguments readable. |
| Calls.CollectConnectedPairs | apps/ai-fullstack/backend/src/agent/graph.py:1451-1462 | The loop fails exactly when a connect has unreadable arguments. Otherwise it collects the batch's (source, target) pairs and its targets. |
| Calls.ReadPair | apps/ai-fullstack/backend/src/agent/graph.py:1452-1462 | One call fails exactly when it is a connect with unreadable arguments. Otherwise it gives the stripped (source, target) pair it contributes, if both ends are non-blank strings, and that pair's target. |
| Calls.PairsOfMembers | apps/ai-fullstack/backend/src/agent/graph.py:1451-1462 | A pair is collected exactly when some connect in the batch has it. |
| Calls.TargetsAreTargetsOfPairs | apps/ai-fullstack/backend/src/agent/graph.py:1593-1606 | The target set is the set of the pairs' targets. |
| Calls.ConnectCallPair | apps/ai-fullstack/backend/src/agent/graph.py:1487-1497 | A generated connect is a readable connect with exactly its (source, target) pair. |
| Calls.RunCallTarget | apps/ai-fullstack/backend/src/agent/graph.py:1705-1710 | A generated run is a readable run of exactly its label. |
| Calls.AddingConnectsKeepsCreatesOk | apps/ai-fullstack/backend/src/agent/graph.py:1499-1500 | Adding only connects keeps create arguments readable. |
| Continuity.TargetOf | apps/ai-fullstack/backend/src/agent/graph.py:1609-1626 | A create is a continuity target only if it is an image, not a grid, labelled other than the upstream image. |
| Continuity.ReadTarget | apps/ai-fullstack/backend/src/agent/graph.py:1609-1626 | Reading one create equals `TargetOf`. |
| Continuity.RunSlotSpec | apps/ai-fullstack/backend/src/agent/graph.py:1632-1641 | The slot is the first run of the target at or after the scan start; with no such run it is the default. |
| Continuity.FindRunSlot | apps/ai-fullstack/backend/src/agent/graph.py:1632-1641 | The run search loop computes `RunSlot`. |
| Continuity.InsertAt | apps/ai-fullstack/backend/src/agent/graph.py:1642-1654 | `insert` adds exactly one call. |
| Continuity.NewTargetsMember | apps/ai-fullstack/backend/src/agent/graph.py:1609-1655 | A label gets an upstream connect exactly when some create in the batch targets it, it is not yet a target, and it is not yet connected from upstream. |
| Continuity.NewTargetsDistinct | apps/ai-fullstack/backend/src/agent/graph.py:1627-1655 | No label is connected twice. |
| Continuity.UpstreamConnects | apps/ai-fullstack/backend/src/agent/graph.py:1642-1654 | One upstream connect per target, in order. |
| Continuity.ContinueFromAdds | apps/ai-fullstack/backend/src/agent/graph.py:1609-1655 | The loop over the snapshot adds exactly the upstream connects of the new targets. |
| Continuity.ContinuitySpec | apps/ai-fullstack/backend/src/agent/graph.py:1554-1655 | Without reference wording or a finished upstream image, the batch is untouched. Otherwise it adds one connect from upstream to each distinct label that an image create targets and that was not yet a target. |
| Continuity.ContinuityOrder | apps/ai-fullstack/backend/src/agent/graph.py:1554-1655 | The batch is a subsequence of the result. Each new connect sits ahead of every run of its label that comes after a create targeting that label. |
| Continuity.PairTestRedundant | apps/ai-fullstack/backend/src/agent/graph.py:1627-1630 | The `(upstream, target) in existing_pairs` test never decides anything, since such a target is already in `existing_targets`. |
| Continuity.StaleIndexCounterexample | apps/ai-fullstack/backend/src/agent/graph.py:1609-1654 | Take two image creates, no runs, and reference wording. The second connect lands before the second create: the result is `[a, up→A, up→B, b]`. |
| Continuity.StaleIndexWitness | apps/ai-fullstack/backend/src/agent/graph.py:1609-1626 | Two labelled image creates qualify as targets, so the counterexample has inputs. |
| Continuity.LinkUpstream | apps/ai-fullstack/backend/src/agent/graph.py:1554-1655 | The imperative pass equals `Continuity`. |
| Continuity.ConnectTargets | apps/ai-fullstack/backend/src/agent/graph.py:1609-1655 | The loop over the snapshot, inserting into the live batch, computes `ContinueFrom` from the first index with the live batch equal to the snapshot. |
| Continuity.ContinuityCreatesOk | apps/ai-fullstack/backend/src/agent/graph.py:1554-1655 | The continuity pass keeps create arguments readable. |
| Sequencing.KeepCounts | apps/ai-fullstack/backend/src/agent/graph.py:1673-1682 | The filter removes every premature run and keeps every other call as often as before. |
| Sequencing.KeepSplit | apps/ai-fullstack/backend/src/agent/graph.py:1673-1682 | The filter keeps order: what it keeps before any cut comes before what it keeps after. |
| Sequencing.KeepAll | apps/ai-fullstack/backend/src/agent/graph.py:1673-1682 | A batch without premature runs is kept whole. |
| Sequencing.KeepCreated | apps/ai-fullstack/backend/src/agent/graph.py:1658-1682 | Dropping runs changes neither the created images nor the created videos. |
| Sequencing.DropPrematureSpec | apps/ai-fullstack/backend/src/agent/graph.py:1657-1682 | The drop applies only when both an image-family and a composeVideo create exist. It raises exactly when it applies and some run is unreadable. When it applies, it removes every run of a created video and keeps every other call in its order, and the created labels are unchanged. |
| Sequencing.DropPrematureIdempotent | apps/ai-fullstack/backend/src/agent/graph.py:1657-1682 | After the drop no premature run remains, and dropping again changes nothing. |
| Sequencing.ReadCreated | apps/ai-fullstack/backend/src/agent/graph.py:1660-1671 | Reading one call gives its created image and video labels; a call with unreadable arguments gives none. |
| Sequencing.CollectCreated | apps/ai-fullstack/backend/src/agent/graph.py:1658-1671 | The loop collects the created image and video labels. |
| Sequencing.KeepOnTime | apps/ai-fullstack/backend/src/agent/graph.py:1673-1682 | The comprehension raises on an unreadable run, else keeps the calls that are not premature. |
| Sequencing.DropPrematureVideoRuns | apps/ai-fullstack/backend/src/agent/graph.py:1657-1682 | The imperative drop equals `DropPremature`. |
| Sequencing.DropPrematureCreatesOk | apps/ai-fullstack/backend/src/agent/graph.py:1657-1682 | The drop keeps create arguments readable. |
| Sequencing.AutoRunsForSpec | apps/ai-fullstack/backend/src/agent/graph.py:1702-1711 | The appended calls are exactly runs of created labels that were not running. |
| Sequencing.CreatedImageRun | apps/ai-fullstack/backend/src/agent/graph.py:1705-1710 | An appended run targets its label and counts as running it. |
| Sequencing.AutoRunsKeepCreated | apps/ai-fullstack/backend/src/agent/graph.py:1702-1711 | Appending runs changes no created label. |
| Sequencing.AutoRunsSpec | apps/ai-fullstack/backend/src/agent/graph.py:1684-1711 | The pass raises exactly on an unreadable run. Otherwise the batch is kept as a prefix, and what is appended is exactly a run for each created image label with no run. Every created image then runs. |
| Sequencing.AutoRunsIdempotent | apps/ai-fullstack/backend/src/agent/graph.py:1684-1711 | Running the pass again appends nothing. |
| Sequencing.DuplicateAutoRuns | apps/ai-fullstack/backend/src/agent/graph.py:1692-1711 | A label created twice gets two appended runs. |
| Sequencing.CollectRunsAndImages | apps/ai-fullstack/backend/src/agent/graph.py:1684-1701 | The loop fails exactly on an unreadable run, else collects what runs and the created image labels. |
| Sequencing.AppendAutoRuns | apps/ai-fullstack/backend/src/agent/graph.py:1684-1711 | The imperative pass equals `AutoRuns`. |
| Sequencing.AutoRunsCreatesOk | apps/ai-fullstack/backend/src/agent/graph.py:1684-1711 | Appending runs keeps create arguments readable. |
| StreamReducer.Collect | apps/ai-fullstack/backend/src/agent/graph.py:419-536 | The event loop and the emission loop compute `Collected`. |
| StreamReducer.ReadEvents | apps/ai-fullstack/backend/src/agent/graph.py:425-521 | The event loop leaves the text, records, insertion order and aliases equal to `Run` of the events. |
| StreamReducer.EmitCalls | apps/ai-fullstack/backend/src/agent/graph.py:523-535 | The emission loop over the insertion order computes `Emit` of the collected state. |
| StreamReducer.EmitRecord | apps/ai-fullstack/backend/src/agent/graph.py:524-535 | A record with an empty name gives no call. A named one gives one call with its id, its name and its arguments parsed: `{}` for blank text, the parsed value, or the raw text when parsing fails. |
| StreamReducer.StepValid | apps/ai-fullstack/backend/src/agent/graph.py:424-473 | Each event keeps the reducer's bookkeeping consistent: every call in the order has a record, and there are no duplicates. |
| StreamReducer.RunValid | apps/ai-fullstack/backend/src/agent/graph.py:424-473 | The bookkeeping stays consistent over any event sequence. |
| StreamReducer.Put | apps/ai-fullstack/backend/src/agent/graph.py:449 | Storing a record changes only that record and keeps the bookkeeping consistent. |
| StreamReducer.DeltaAppends | apps/ai-fullstack/backend/src/agent/graph.py:450-461 | An arguments delta appends to the record that the item id's alias points to. |
| StreamReducer.DoneOverwrites | apps/ai-fullstack/backend/src/agent/graph.py:462-473 | An arguments-done event overwrites the arguments of the aliased record. |
| StreamReducer.ItemRegistersAlias | apps/ai-fullstack/backend/src/agent/graph.py:435-438 | An output item maps both its item id and its call id to the call id. |
| StreamReducer.DeltasConcatenate | apps/ai-fullstack/backend/src/agent/graph.py:450-461 | A run of deltas for one item concatenates onto its arguments and leaves the aliases alone. |
| StreamReducer.Deltas | apps/ai-fullstack/backend/src/agent/graph.py:450-461 | One delta event per piece. |
| StreamReducer.ParseArgs | apps/ai-fullstack/backend/src/agent/graph.py:528-534 | Blank arguments parse to `{}`, parseable ones to their value, and anything else is kept as the raw string. |
| StreamReducer.EmitUpTo | apps/ai-fullstack/backend/src/agent/graph.py:523-535 | At most one call is emitted per record key. |
| StreamReducer.EmitUpToFrom | apps/ai-fullstack/backend/src/agent/graph.py:523-535 | Each emitted call comes from a position in the insertion order, and carries that record's non-empty name. |
| StreamReducer.EmitUpToDistinct | apps/ai-fullstack/backend/src/agent/graph.py:523-535 | No id is emitted twice. |
| StreamReducer.EmitUpToComplete | apps/ai-fullstack/backend/src/agent/graph.py:523-535 | Every named record is emitted, with its parsed arguments. |
| StreamReducer.EmitExactlyNamed | apps/ai-fullstack/backend/src/agent/graph.py:523-535 | An id is emitted exactly when its record has a non-empty name. |
| Reply.FindBlock | apps/ai-fullstack/backend/src/agent/graph.py:1131-1143 | A block found has the marker at its start and a closing fence after the payload's newline, all within the text. |
| Reply.FindBlockIsFirst | apps/ai-fullstack/backend/src/agent/graph.py:1133-1143 | It is the first marker, the payload starts after the first newline following it, and the fence is the first after the payload. |
| Reply.ExtractWithoutBlock | apps/ai-fullstack/backend/src/agent/graph.py:1131-1143 | Without both the marker and a closing fence, the text comes back unchanged with no actions. |
| Reply.ExtractWithoutMarker | apps/ai-fullstack/backend/src/agent/graph.py:1131-1136 | A text without the marker comes back unchanged with no actions. |
| Reply.ExtractWithBlock | apps/ai-fullstack/backend/src/agent/graph.py:1144-1166 | With a block, the fenced part is cut out of the returned text (stripped) even if its JSON fails to parse. The actions, when present, number one to six. |
| Reply.ActionOf | apps/ai-fullstack/backend/src/agent/graph.py:1155-1163 | An action has a stripped non-empty label and a non-blank input. |
| Reply.ActionsSpec | apps/ai-fullstack/backend/src/agent/graph.py:1153-1166 | There are at most six actions. Each has a stripped non-empty label and a non-blank input, and comes from an item of the list. |
| Reply.NormalizeActions | apps/ai-fullstack/backend/src/agent/graph.py:1153-1166 | The loop with its early break computes `Actions`. |
| Reply.Extract | apps/ai-fullstack/backend/src/agent/graph.py:1130-1166 | The imperative extractor equals `ExtractActions`. |
| Reply.LocateBlock | apps/ai-fullstack/backend/src/agent/graph.py:1133-1143 | The search finds the marker's fenced block exactly as `FindBlock` does. |
| Reply.ReadPayload | apps/ai-fullstack/backend/src/agent/graph.py:1144-1166 | Parsing the fenced payload gives `PayloadActions`: the normalized actions when the JSON has a non-empty `actions` list, otherwise none. |
| Reply.CountNamed | apps/ai-fullstack/backend/src/agent/graph.py:237-240 | A count is at most the batch size, and zero exactly when no call has that name. |
| Reply.CollectCreatedLabels | apps/ai-fullstack/backend/src/agent/graph.py:242-247 | The loop fails exactly when some create's arguments are unreadable. Otherwise it gives the created labels in order. |
| Reply.ReadCreateLabel | apps/ai-fullstack/backend/src/agent/graph.py:242-246 | One call fails exactly when it is a create with unreadable arguments. Otherwise it gives the create's label, if any. |
| Reply.FallbackTextEnds | apps/ai-fullstack/backend/src/agent/graph.py:235-266 | The summary exists exactly when creates are readable, and then ends with "。". |
| Reply.FallbackTextGeneric | apps/ai-fullstack/backend/src/agent/graph.py:264-266 | The summary is the generic "已更新画布。" exactly when the batch has none of the four canvas operations. |
| Reply.FallbackTextNamesFirstLabel | apps/ai-fullstack/backend/src/agent/graph.py:249-254 | With labelled creates, the summary starts by naming the first label. |
| Reply.FallbackPartsNameFirst | apps/ai-fullstack/backend/src/agent/graph.py:249-254 | The parts begin with the created-labels part when there are labels. |
| Reply.FallbackPartsNonEmpty | apps/ai-fullstack/backend/src/agent/graph.py:249-262 | Every part is at least nine characters. |
| Reply.CiteUpTo | apps/ai-fullstack/backend/src/agent/graph.py:1747-1750 | The cited sources are at most as many as scanned, and each is among them. |
| Reply.CiteNothingToReplace | apps/ai-fullstack/backend/src/agent/graph.py:1747-1750 | Sources whose short URLs are not in the reply leave it unchanged and are not cited. |
| Reply.CiteUsedPrefix | apps/ai-fullstack/backend/src/agent/graph.py:1747-1750 | Sources are cited in order: the citations of a prefix are a prefix. |
| Reply.CiteUsedExactly | apps/ai-fullstack/backend/src/agent/graph.py:1747-1750 | The cited sources are exactly those whose short URL is in the text when their turn comes, in the order gathered. |
| Reply.CiteUsedInOrder | apps/ai-fullstack/backend/src/agent/graph.py:1747-1750 | The cited sources are a subsequence of the gathered sources. |
| Reply.CiteFirstSubstitution | apps/ai-fullstack/backend/src/agent/graph.py:1747-1750 | Sources before the first one whose short URL occurs in the reply change nothing; that source's short URL is replaced in the reply as written. |
| Reply.CiteFirstOccurring | apps/ai-fullstack/backend/src/agent/graph.py:1747-1750 | The first source whose short URL occurs in the reply is the first one cited. |
| Reply.Citations | apps/ai-fullstack/backend/src/agent/graph.py:1747-1750 | The loop computes `Cite`. |
| ErrorSummary.SummarizeNonEmpty | apps/ai-fullstack/backend/src/agent/graph.py:199-222 | The error summary is never empty. |
| ErrorSummary.SummarizeStartsWithStatus | apps/ai-fullstack/backend/src/agent/graph.py:199-222 | With a status, the summary starts with it. |
| ErrorSummary.SummarizeLeadsWithBodyMessage | apps/ai-fullstack/backend/src/agent/graph.py:201-218 | Without a status, the body error's message leads the summary. |
| ErrorSummary.SummarizeBodyOverMessage | apps/ai-fullstack/backend/src/agent/graph.py:216-221 | Once the error body gives any bits, the top-level `message` has no effect on the summary. |
| ErrorSummary.SummarizeIsMessage | apps/ai-fullstack/backend/src/agent/graph.py:219-221 | Without a status and without body bits, the non-empty top-level message is the whole summary. |
| Roles.Lookup | apps/ai-fullstack/backend/src/agent/graph.py:770-772 | A role is found exactly when it is registered, and the profile found is the registered one. |
| Roles.ResolveRole | apps/ai-fullstack/backend/src/agent/graph.py:768-773 | The id is normalized. The profile is the registered one, or the default's when the id is unknown. |
| Roles.FirstMention | apps/ai-fullstack/backend/src/agent/graph.py:601-605 | The chosen role is a registered role whose id or lower-cased name the text mentions. None is chosen exactly when no role is mentioned. |
| Roles.FirstMentionIsFirst | apps/ai-fullstack/backend/src/agent/graph.py:602-605 | It is the first mentioned role in registry order. |
| Roles.MatchRole | apps/ai-fullstack/backend/src/agent/graph.py:601-605 | The loop with its break computes `FirstMention`. |
| Roles.FallbackDecisionSpec | apps/ai-fullstack/backend/src/agent/graph.py:597-615 | The fallback decision names the first mentioned role (normalized), or the default. Its name is the resolved profile's, canvas tools are allowed, and the reason is never empty. |
| Roles.FallbackWithoutMentionIsDefault | apps/ai-fullstack/backend/src/agent/graph.py:597-607 | With no role mentioned, the decision is the default role. |
| Roles.StructureRaisesOnlyForOtherSchemas | apps/ai-fullstack/backend/src/agent/graph.py:583-616 | Unparseable output raises only for schemas without a fallback; the query-list fallback is `[prompt]`. |
| Roles.SelectRole | apps/ai-fullstack/backend/src/agent/graph.py:813-837 | The selection carries the normalized role and its profile name. The reason is the decision's, or the default text. The canvas flag is the decision's, and both reasons are non-empty. |
| Keywords.SuggestionExcludesStoryboard | apps/ai-fullstack/backend/src/agent/graph.py:1195-1199 | A request for directions never asks for a storyboard. |
| Keywords.ContinuationImpliesReferenceIntent | apps/ai-fullstack/backend/src/agent/graph.py:1266-1269 | "续写" implies reference wording, and makes a continuation step unless it is a request for directions. |
| Keywords.NoGridHint | apps/ai-fullstack/backend/src/agent/graph.py:1285-1290 | A text without the hint words' first characters has no grid hint. |
| AutoRag.NormalizeBounds | apps/ai-fullstack/backend/src/agent/graph.py:43-86 | A non-dict result gives nothing. A dict gives one to nine snippets and at most eight sources, each citing its own non-blank URL. |
| AutoRag.SnippetNumbered | apps/ai-fullstack/backend/src/agent/graph.py:74-77 | Each snippet starts with its 1-based `[n]`. |
| AutoRag.SourceAtSpec | apps/ai-fullstack/backend/src/agent/graph.py:78-79 | An item gives a source exactly when it is a dict with a non-blank URL. |
| AutoRag.SourceAt | apps/ai-fullstack/backend/src/agent/graph.py:78-79 | A source's short URL is its value, and it is not blank. |
| AutoRag.NormalizeItems | apps/ai-fullstack/backend/src/agent/graph.py:56-79 | The item loop collects the snippets and sources of the specification. |

## Left out

- Network I/O is left out: the OpenAI and Gemini clients and calls, the AutoRAG HTTP request and web search. The provider's answer is the input `Finalize.Provider`.
- `require_gemini_key` and a failing Gemini call raise out of the node and are not modelled. A Gemini `content` that is a list of parts is not modelled either: `GeminiAnswer` carries text.
- `_format_openai_error` probes an exception by `getattr`; its payload is an input of `OpenAIFailure`. `str(exc)` of a pass's exception is the input `crashMessage`. Debug printing is not modelled.
- The prompt text is not modelled: the role directive, the date, `answer_instructions` and `json.dumps` of the canvas context only shape the prompt, which the model's answer stands in for.
- `json.loads`, `json.dumps`, float formatting, `normalize_role_id` and `role_map()` are parameters. The registry is a list of (id, profile) pairs with a registered default id.
- The duck-typed chunk probing in `_collect_stream_text` / `_extract_openai_text` is not modelled. The reducer works on an event datatype whose text events carry the text they add, and exceptions swallowed mid-stream are not modelled.
- `_tool_definitions_for_canvas`, the research loop nodes and the LangGraph wiring are not modelled; they are constant data and framework plumbing.
- Tool-call lists and argument dicts are values, not objects updated in place. Aliasing between the payload and the argument dicts is not captured. Each pass returns the new batch, or on an exception the batch as it stood.
- Finalize.RunPasses, Normalize.NormalizeImages, Storyboard.StoryboardStep, Continuity.LinkUpstream, Sequencing.DropPrematureVideoRuns, Sequencing.AppendAutoRuns: these methods require that every create's arguments are readable. In the node they only run after the confirmation has read every create, so they state no error path for unreadable creates; the functions they implement do.
- Python sets of labels that are only tested for membership are sequences in the model.
- Floats are not modelled: JSON numbers are integers, and AutoRAG's score formatting is a parameter.
- `str()` of a dict or list renders as a fixed placeholder. Case folding (`lower()`) covers ASCII only, and `strip()` uses Python's whitespace set for the characters a Dafny `char` holds.
- The repeated `active_role*` fields of the returned state are not modelled separately; they equal the message's fields.
- Keyword lists are string-containment predicates over the very words the source lists.

## Findings

| source | as written | input that shows it | evidently intended | confidence | as-written member | corrected member |
|---|---|---|---|---|---|---|
| apps/ai-fullstack/backend/src/agent/graph.py:1745-1746 | Any non-blank answer is run through `_extract_tapcanvas_actions`, whose second result overwrites `quick_replies_payload`. It is `None` for an answer without an actions block. | `allow_canvas_tools` is `False`, the user did not ask for story directions, and the model answers "好的" with no actions block. The gate sets its three buttons, and the message ends with no `quick_replies`. | Keep the buttons set by the gate, the story directions or the character confirmation when the answer carries no actions of its own. | not executed | Finalize.GateRepliesLost | Finalize.FinishKeepsReplies |

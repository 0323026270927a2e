# AI sports commentator: a verified model of its decision logic

The system watches a sports video, detects the ball and the players in each frame and
asks a language model for spoken commentary when something happens. This project
models in Dafny the parts of it that decide things, and proves properties of them.

- **Ball-tracking triggers.** There are three variants, kept apart as they are in the code:
  - the Roboflow sports processor, with a big-play latch, play-result and goal-line events and a commentary cooldown;
  - the web pipeline's `_handle_detections`, with no latch and a `Debouncer`;
  - its closure copy in the real-time agent's `on_detection`.
- **Reply post-processing.** The commentary reply is post-processed into display text, an emotion and a speech speed.
- **Detection filtering.** Detections are filtered by confidence and by class, and boxes are converted into `DetectedObject`s.
- **The viewer profile.**
  - Slider descriptions, the connections summary, the prompt block, `from_dict` and the personas.
  - The onboarding server's slider tables, the `[PROFILE_COMPLETE]` block extraction, the message filter and the call transcript.
  - The side panel's `submitProfile`.
- **The speech-to-text plugin.** Its key check, its turn machine and its message dispatch.
- **The side panel.** Its audio queue (capped at five) and its commentary list (capped at twenty).
- **The extension's service worker.** YouTube video-id extraction and its three capture globals.

Code that updates state in place is modelled as a Dafny `class` whose methods are
proved against a pure specification function. Code made of expressions is modelled
as functions with lemmas. Clock readings, random choices, the language model's replies,
`json.loads`, base64 decoding and the browser's tab and capture answers are all
parameters.

The modules:

| module | file | source |
|---|---|---|
| `Util` | util.dfy | shared helpers: Option, filter, join/split, Python and JavaScript trimming, ASCII lower-casing, integer text |
| `Cooldown` | cooldown.dfy | the `now - last >= interval` gate shared by the debouncers and `_should_comment` |
| `DetectionModel` | detection_model.dfy | agent/processors/events.py, `_filter_detections` and `_build_objects` |
| `SportsProcessor` | sports_processor.dfy | agent/processors/sports_processor.py |
| `Pipeline` | pipeline.dfy | agent/pipeline.py |
| `AgentMain` | agent_main.dfy | agent/main.py |
| `Profiles` | user_profile.dfy | agent/user_profile.py |
| `Server` | server.dfy | agent/server.py |
| `CartesiaStt` | cartesia_stt.dfy | agent/cartesia_stt.py |
| `DetectionProcessor` | detection_processor.dfy | agent/processors/detection_processor.py |
| `SidePanel` | side_panel.dfy | extension/entrypoints/sidepanel/App.tsx |
| `ProfileSetup` | profile_setup.dfy | extension/entrypoints/sidepanel/ProfileSetup.tsx |
| `Background` | background.dfy | extension/.output/chrome-mv3-dev/background.js, lines 7-91 |

With the threshold of three ball-free frames, the sports processor calls the big play on
the third missing frame. In the scenario of two ball frames, four ball-free frames and the
ball again, that is frame 5 (`SportsProcessor.BigPlayScenario`).

## Model

| member | source | states |
|---|---|---|
| Cooldown.GateRemembersLastFire | agent/pipeline.py:63-68 | over nondecreasing clock readings, every instant the debouncer answered true at is at or before its final timer reading |
| Cooldown.GateSpacing | agent/pipeline.py:63-68 | a debouncer consulted at nondecreasing times answers true at most once per interval: any two true answers are at least `interval` apart |
| Cooldown.SameInstantThenFullInterval | agent/pipeline.py:63-68 | asked twice at the same instant, an open debouncer with a positive interval answers true then false, and true again a full interval later |
| DetectionModel.Trunc | agent/pipeline.py:160-163 | `int()` of a box corner drops the fraction toward zero, for negative corners as well |
| DetectionModel.Get | agent/pipeline.py:156 | `class_name_map.get` finds nothing exactly when no entry has the id, and anything it finds is stored with that id |
| DetectionModel.GetFinds | agent/pipeline.py:156 | with distinct keys `get` returns the name stored with the id |
| DetectionModel.FallbackLabelsDistinct | agent/pipeline.py:156 | two different unknown class ids get different `class_{cid}` labels |
| DetectionModel.ObjectsFacts | agent/pipeline.py:148-166 | one object per box in box order, none for no boxes, corners truncated toward zero, the mapped name or `class_{cid}` as the label, and cid 0 when there is no class-id column |
| DetectionModel.BuildObjects | agent/pipeline.py:148-166 | the append loop returns exactly the objects `ObjectsFacts` describes |
| DetectionModel.AllowedIds | agent/pipeline.py:139-143 | the loop over the class map collects exactly the ids whose name is allowed |
| DetectionModel.AllowedByGet | agent/processors/detection_processor.py:251-256 | with distinct keys, an id is allowed exactly when `get` maps it to an allowed name |
| DetectionModel.KeepAllowed | agent/pipeline.py:145-146 | the mask keeps only rows whose class id is allowed, and keeps every such row |
| DetectionModel.KeepAllowedAppend | agent/pipeline.py:145-146 | masking a concatenation masks each part, so order is kept and nothing is duplicated |
| SportsProcessor.ParseDetections | agent/processors/sports_processor.py:293-325 | the loop keeps the predictions at or above the threshold, class lower-cased (ASCII letters) with "unknown" and 0.0 defaults, and reads a missing `predictions` key as an empty list |
| SportsProcessor.ParsedDetections | agent/processors/sports_processor.py:310-325 | every kept detection is at or above the threshold and comes from an input prediction, every such prediction is kept, and parsing a concatenation parses each part in order |
| SportsProcessor.ClusterIsTight | agent/processors/sports_processor.py:429-460 | a goal-line event carries exactly the players, there are at least six, and any two of their centres are less than 200 px per player apart |
| SportsProcessor.StackedPlayersCluster | agent/processors/sports_processor.py:429-460 | six or more players with the same centre always form a goal-line cluster |
| SportsProcessor.Classify | agent/processors/sports_processor.py:327-414 | play_result exactly for a ball frame while latched, clearing latch and counter; a ball frame while unlatched resets the counter and marks the ball seen; a ball-free frame adds one; big_play exactly at counter >= 3 with the ball seen and no latch, setting the latch; goal_line exactly when no ball event fired and the players cluster |
| SportsProcessor.OtherClassesIgnored | agent/processors/sports_processor.py:348-351 | a detection whose class is neither a ball nor a player class changes neither the tracking state nor the kind of event |
| SportsProcessor.ClassifyKeepsInv | agent/processors/sports_processor.py:354-407 | the latch is only ever set with the ball seen and the counter at least 3, and "ball seen" is never cleared |
| SportsProcessor.RunTracking | agent/processors/sports_processor.py:373-382 | from the initial state, the counter equals the number of trailing ball-free frames, and "ball seen" holds exactly when some frame had a ball |
| SportsProcessor.NoBigPlayBeforeBall | agent/processors/sports_processor.py:384-389 | a big play is only called after the ball was on screen in an earlier frame |
| SportsProcessor.OneBigPlayPerAbsence | agent/processors/sports_processor.py:384-407 | over ball-free frames no two frames call a big play, none does if the ball was never seen or the latch was set, and the latch stays set |
| SportsProcessor.BigPlayScenario | agent/processors/sports_processor.py:327-414 | two ball frames, four ball-free frames, then the ball: big play on frame 5, play result on frame 7, nothing else |
| SportsProcessor.HandleEventSpec | agent/processors/sports_processor.py:464-505 | an event is forwarded exactly when the cooldown has elapsed and an agent is attached, and only then does the timer move to `now` |
| SportsProcessor.RunRemembersLastForward | agent/processors/sports_processor.py:482-500 | every forwarded frame's time is at or before the final commentary timer |
| SportsProcessor.ForwardedEventsSpaced | agent/processors/sports_processor.py:464-505 | over a session, any two forwarded events are at least the cooldown apart, whatever the detections |
| SportsProcessor.NoAgentNoCommentary | agent/processors/sports_processor.py:490-492 | without an agent nothing is ever forwarded and the timer never moves |
| SportsProcessor.SportsCommentaryProcessor.constructor | agent/processors/sports_processor.py:74-104 | starts stopped, without agent, with all tracking fields at their initial values |
| SportsProcessor.SportsCommentaryProcessor.AttachAgent | agent/processors/sports_processor.py:109-112 | attaches the agent and changes nothing else |
| SportsProcessor.SportsCommentaryProcessor.StartProcessing | agent/processors/sports_processor.py:114-152 | processing starts; the tracking state is untouched |
| SportsProcessor.SportsCommentaryProcessor.ClassifyEvent | agent/processors/sports_processor.py:327-414 | the in-place updates produce exactly `Classify`'s new tracking state and event |
| SportsProcessor.SportsCommentaryProcessor.HandleEvent | agent/processors/sports_processor.py:473-505 | the timer and the forwarded list change exactly as `HandleEventSpec` says; tracking is untouched |
| SportsProcessor.SportsCommentaryProcessor.OnFrame | agent/processors/sports_processor.py:176-215 | a stopped processor or a failed detector call changes nothing; otherwise classify, then gate and forward |
| SportsProcessor.SportsCommentaryProcessor.StopProcessing | agent/processors/sports_processor.py:507-522 | frames are ignored from now on and the tracking state is kept |
| SportsProcessor.SportsCommentaryProcessor.Close | agent/processors/sports_processor.py:524-536 | stops and restores all four tracking fields to their initial values |
| Pipeline.Debouncer.constructor | agent/pipeline.py:59-61 | the timer starts at 0.0 with the given interval |
| Pipeline.Debouncer.Check | agent/pipeline.py:63-68 | true exactly when `now - last >= interval`; the timer moves to `now` exactly on true |
| Pipeline.Step | agent/pipeline.py:170-203 | reappearance (ball with counter >= 3): counter 0, ball seen, at most the play-result prompt and never the routine one; ball frame: counter 0, routine prompt iff the debouncer is open; ball-free frame: counter + 1, big-play prompt iff counter >= 3, ball seen and debouncer open, the debouncer untouched unless the first two hold |
| Pipeline.RunRemembersLastPrompt | agent/pipeline.py:170-203 | every prompting frame's time is at or before the final debouncer timer |
| Pipeline.PromptsSpaced | agent/pipeline.py:170-203 | over a session, any two prompts are at least the debounce interval apart |
| Pipeline.BigPlayRepeats | agent/pipeline.py:191-203 | without a latch the big-play prompt fires again on a later frame of the same absence |
| Pipeline.Emotion | agent/pipeline.py:219-220 | the emotion is "neutral" or a non-empty word the reply begins with as `[EMOTION:word]` |
| Pipeline.DisplayText | agent/pipeline.py:216 | the display text has no leading or trailing whitespace |
| Pipeline.StripTagsNoBracket | agent/pipeline.py:50 | text without `[` has no tag to remove |
| Pipeline.StripTagsAfterText | agent/pipeline.py:216 | a tag after bracket-free text is removed with the whitespace that follows it, and the text before it is kept |
| Pipeline.TagsInsideReply | agent/pipeline.py:216 | a reply with a tag inside its commentary is shown as the text around the tag, without the tag and the whitespace after it, then stripped |
| Pipeline.TaggedReply | agent/pipeline.py:216-220 | for `[EMOTION:w]` followed by text, the emotion is `w` and the display text is the text stripped, without the tag and the whitespace after it |
| Pipeline.UntaggedReply | agent/pipeline.py:216-220 | a reply without `[` is shown stripped with the neutral emotion |
| Pipeline.SpeedTable | agent/pipeline.py:257-265 | every speed lies in [0.85, 1.2]; it differs from 1.0 exactly for the six listed emotions; neutral speaks at 1.0 |
| Pipeline.CommentaryFor | agent/pipeline.py:211-213 | an empty reply produces no message and no speech, and any other reply produces one |
| Pipeline.GenerateCommentary | agent/pipeline.py:250-252 | a non-empty result is the text of the first content block, which is a text block |
| Pipeline.BaseCommentaryPipeline.constructor | agent/pipeline.py:82-104 | not running, no model, ball not seen, counter 0, a fresh debouncer at 0.0 |
| Pipeline.BaseCommentaryPipeline.FilterDetections | agent/pipeline.py:134-146 | without a class-id column the input comes back unchanged; otherwise only ids mapped to person or sports ball survive |
| Pipeline.BaseCommentaryPipeline.DetectFromArray | agent/pipeline.py:118-132 | without a model no objects; otherwise the filtered prediction converted to objects |
| Pipeline.BaseCommentaryPipeline.HandleDetections | agent/pipeline.py:170-203 | the in-place updates of the counter, the flag and the debouncer, and the prompt issued, are exactly `Step`'s |
| Pipeline.BaseCommentaryPipeline.Commentate | agent/pipeline.py:207-240 | sends the message `CommentaryFor` gives for the reply and changes nothing else |
| Pipeline.BaseCommentaryPipeline.Initialize | agent/pipeline.py:375-378 | running, with the model and its class map loaded; tracking untouched |
| Pipeline.BaseCommentaryPipeline.ProcessFrame | agent/pipeline.py:380-393 | ignored unless running; otherwise `Step` applied to whether the detected objects contain a sports ball |
| AgentMain.Debouncer.constructor | agent/main.py:42-44 | the timer starts at 0.0 with the given interval |
| AgentMain.Debouncer.Check | agent/main.py:46-52 | true exactly when the interval has elapsed; the timer moves only on true |
| AgentMain.DetectionSubscriber.constructor | agent/main.py:96-101 | ball not present, counter 0, a fresh debouncer |
| AgentMain.DetectionSubscriber.OnDetection | agent/main.py:104-139 | its state change and prompt are exactly `Pipeline.Step`'s, so the closure and the web pipeline behave identically |
| Profiles.BandMonotone | agent/user_profile.py:32-50 | a higher slider never lands in a lower description band |
| Profiles.ExpertiseDescription | agent/user_profile.py:32-41 | the description is the one for the band of the bounds 20, 50, 80 that the slider reached |
| Profiles.StyleInstruction | agent/user_profile.py:43-50 | the instruction is the one for the band of the bounds 30, 60 that the slider reached |
| Profiles.AlmaNames | agent/user_profile.py:58-59 | at most the first three alma-mater players, each named or "Unknown" |
| Profiles.ConnectionsOrder | agent/user_profile.py:52-62 | parts in the order favourite players, alma-mater players, hometown (first two); each present exactly when its list is non-empty; the summary is "" exactly when all three lists are empty |
| Profiles.PromptLayout | agent/user_profile.py:64-84 | header, name, expertise and style lines always appear in that order; the team lines sit between name and expertise; connections and interests lines appear only with content |
| Profiles.RivalOnlyWithFavorite | agent/user_profile.py:69-72 | the rival line appears only when both the favourite and the rival team are set, and only right after the favourite team |
| Profiles.FromDict | agent/user_profile.py:86-99 | `from_dict` never fills the research-enrichment fields |
| Profiles.FromDictDefaultsAndRoundTrip | agent/user_profile.py:86-99 | an empty dict gives the default profile (Fan, 50, 50, empty lists), and a profile without enrichment survives a dict round trip |
| Profiles.PersonasWellFormed | agent/user_profile.py:104-135 | every persona's sliders are within 0-100 and land in the bands their names promise |
| Server.ExpertiseTable | agent/server.py:147-152 | beginner/casual/knowledgeable/expert map to 15/40/65/90, anything else to 40, ignoring ASCII letter case |
| Server.HotTakeTable | agent/server.py:154-158 | balanced/moderate/homer map to 25/50/80, anything else to 25, ignoring ASCII letter case |
| Server.BuildProfileFacts | agent/server.py:212-228 | voice always "danny", sliders from the tables, the two endpoints' records differ only in the extra keys, and an empty object gives the hard-coded default profile |
| Server.FirstCloseNone | agent/server.py:160-163 | the lazy group has no end exactly when no `}` is followed by optional whitespace and the closing tag |
| Server.FirstCloseFound | agent/server.py:160-163 | the lazy group ends at the first `}` followed by optional whitespace and the closing tag |
| Server.SkipSpacesFacts | agent/server.py:160-163 | `\s*` skips exactly the run of whitespace, stopping at the first other character |
| Server.SearchNone | agent/server.py:160-163 | `search` finds nothing exactly when the block matches at no position |
| Server.SearchLeftmost | agent/server.py:160-163 | what `search` finds is the match at the leftmost position where the block matches |
| Server.ProfileChat | agent/server.py:204-228 | done exactly when a block occurs, a profile exactly when done, voice "danny", and the display text is the reply with every block removed, stripped |
| Server.MalformedJsonFallsBack | agent/server.py:212-216 | a finished chat whose JSON does not parse still yields the default profile |
| Server.BlockMatches | agent/server.py:160-163 | a block `[PROFILE_COMPLETE]{body}[/PROFILE_COMPLETE]` matches where it stands, with group `{body}`, covering the block |
| Server.BlockRoundTrip | agent/server.py:204-228 | text, a block around an object, then text: done, the profile built from that object, and the viewer sees the surrounding text stripped |
| Server.PlainReply | agent/server.py:204-210 | a reply without `[` is not done, has no profile, and is shown stripped |
| Server.GreedySpan | agent/server.py:305-308 | the fallback match runs from the first `{` to the last `}` |
| Server.GreedySpanFound | agent/server.py:305-308 | the fallback finds something exactly when some `{` precedes some `}` |
| Server.ExtractProfile | agent/server.py:288-322 | an extracted profile always has the "danny" voice and no experience key |
| Server.ExtractProfileCases | agent/server.py:298-320 | valid JSON is used as is; a reply that is not JSON but whose greedy `{...}` span is gives the profile built from that span; a reply without `{...}` gives the default profile; and the request fails exactly when both the reply and its greedy span are not JSON |
| Server.BuildConversation | agent/server.py:182-191 | the loop builds exactly the kept messages in order, or the greeting when none is kept |
| Server.ConversationWellFormed | agent/server.py:182-191 | the conversation is never empty and holds only user or assistant messages with text |
| Server.GreetingOnlyWhenNothingKept | agent/server.py:189-191 | the greeting replaces the history exactly when no message has an allowed role and text |
| Server.KeptMessagesSent | agent/server.py:183-187 | every message the filter accepts is sent |
| Server.KeptMessagesAppend | agent/server.py:183-187 | the filter keeps order: a concatenated history keeps each part's messages in turn |
| Server.FormatTranscript | agent/server.py:376-383 | the loop builds the newline-joined speaker lines of the turns |
| Server.TranscriptRoundTrip | agent/server.py:376-383 | splitting the transcript at newlines gives one line per turn, "Danny: text" for assistant turns and "Viewer: text" otherwise |
| Server.CallTranscriptFor | agent/server.py:338-423 | no calls give an empty transcript and the default profile; otherwise the transcript of the latest call and a profile with both extra keys |
| Server.CallTranscriptMatchesExtract | agent/server.py:400-420 | the call-transcript profile succeeds exactly when extract-profile does and equals it without the two extra keys |
| CartesiaStt.CheckKey | agent/cartesia_stt.py:62-69 | construction fails exactly when there is no key, no environment key and no client; a given key is kept |
| CartesiaStt.TranscriptCases | agent/cartesia_stt.py:216-285 | empty text or no participant does nothing; a final emits the text then turn-ended, leaves the turn and clears the start time; the first partial emits turn-started then the partial; later partials emit only the partial |
| CartesiaStt.ListenStopsAtDone | agent/cartesia_stt.py:199-201 | nothing after a "done" message is handled |
| CartesiaStt.IgnoredMessages | agent/cartesia_stt.py:197-203 | "flush_done" and unknown message types change nothing |
| CartesiaStt.TranscriptKeepsOrder | agent/cartesia_stt.py:216-285 | a transcript keeps the event log ordered (turn-started only outside a turn, partials only inside one) and `_in_turn` equal to whether a turn is open |
| CartesiaStt.DispatchKeepsOrder | agent/cartesia_stt.py:184-203 | every dispatched message keeps the log ordered and `_in_turn` in step |
| CartesiaStt.ListenKeepsOrder | agent/cartesia_stt.py:167-214 | the listener keeps the log ordered and `_in_turn` in step, whatever the messages |
| CartesiaStt.CartesiaStt.constructor | agent/cartesia_stt.py:38-88 | not closed, not connected, no participant, no start time, not in a turn, no events |
| CartesiaStt.CartesiaStt.Create | agent/cartesia_stt.py:62-69 | no object exactly when the key check fails; otherwise a fresh plugin holding the checked key |
| CartesiaStt.CartesiaStt.Start | agent/cartesia_stt.py:90-125 | the socket is open and the connection ready; turn state untouched |
| CartesiaStt.CartesiaStt.ProcessAudio | agent/cartesia_stt.py:127-165 | ignored once closed; otherwise, after the wait for `start` has marked the connection ready, records the participant, sets the start time only when unset, and sends the chunk when a socket is open |
| CartesiaStt.CartesiaStt.HandleTranscript | agent/cartesia_stt.py:216-285 | state and emitted events are exactly `TranscriptStep`'s, and the log stays ordered |
| CartesiaStt.CartesiaStt.OnMessage | agent/cartesia_stt.py:184-203 | stops exactly on "done"; otherwise state and events are exactly `Dispatch`'s |
| CartesiaStt.CartesiaStt.ListenForTranscripts | agent/cartesia_stt.py:167-214 | nothing without a socket; otherwise state and events are exactly `Listen`'s over the messages |
| CartesiaStt.CartesiaStt.Close | agent/cartesia_stt.py:301-330 | closed, not ready, no socket; turn state and events kept |
| DetectionProcessor.FilteredFacts | agent/processors/detection_processor.py:246-258 | input unchanged without filter classes or class ids; otherwise a detection survives exactly when its mapped name is listed, in order |
| DetectionProcessor.LocalDetectionProcessor.constructor | agent/processors/detection_processor.py:56-88 | stores the filter classes; not running, no model, no agent, nothing published |
| DetectionProcessor.LocalDetectionProcessor.OnWarmedUp | agent/processors/detection_processor.py:120-124 | the model and its class map are stored |
| DetectionProcessor.LocalDetectionProcessor.AttachAgent | agent/processors/detection_processor.py:128-132 | attaches the agent and changes nothing else |
| DetectionProcessor.LocalDetectionProcessor.ProcessVideo | agent/processors/detection_processor.py:142-169 | running; the frame handler registered only with a shared forwarder |
| DetectionProcessor.LocalDetectionProcessor.FilterDetections | agent/processors/detection_processor.py:246-258 | the loop-built filter equals the filter `FilteredFacts` describes |
| DetectionProcessor.LocalDetectionProcessor.OnFrame | agent/processors/detection_processor.py:194-243 | nothing unless running with a model; a frame whose processing raises is skipped, with nothing published and no event; otherwise the frame is published and, with an agent, an event with the frame's objects is sent |
| DetectionProcessor.LocalDetectionProcessor.StopProcessing | agent/processors/detection_processor.py:297-310 | not running, handler removed, track stopped |
| DetectionProcessor.LocalDetectionProcessor.Close | agent/processors/detection_processor.py:312-316 | stops and additionally drops the model and its class map |
| DetectionProcessor.ClosedIgnoresFrames | agent/processors/detection_processor.py:196-197 | after `close` a frame publishes nothing and sends no event |
| SidePanel.EmotionColorTable | extension/entrypoints/sidepanel/App.tsx:274 | an unknown emotion is drawn in the neutral color, which no listed emotion other than neutral has |
| SidePanel.ColorsMatchSpeeds | extension/entrypoints/sidepanel/App.tsx:23-31 | an emotion has a color of its own exactly when the agent speaks it at a speed other than 1.0 |
| SidePanel.EnqueuedKeepsNewest | extension/entrypoints/sidepanel/App.tsx:100-104 | the queue grows by one until five, then the oldest makes room; it stays at most five, keeps the newest clips in order, and the new clip is last |
| SidePanel.NextClipFacts | extension/entrypoints/sidepanel/App.tsx:60-96 | plays the first clip that decodes, dropping only the clips before it; when none decodes nothing plays and the queue is empty |
| SidePanel.Enqueue | extension/entrypoints/sidepanel/App.tsx:98-110 | while playing the clip is queued last and the current clip continues; the queue stays at most five; an idle empty queue plays the new clip at once if it decodes |
| SidePanel.EmotionOrNeutral | extension/entrypoints/sidepanel/App.tsx:134 | a missing or empty emotion becomes "neutral"; any other is kept |
| SidePanel.KeepLatestFacts | extension/entrypoints/sidepanel/App.tsx:138 | at most twenty items, the newest in order, with the new item last |
| SidePanel.KeepLatestIncreasing | extension/entrypoints/sidepanel/App.tsx:131-138 | ids stay strictly increasing and below the next id |
| SidePanel.SidePanel.constructor | extension/entrypoints/sidepanel/App.tsx:40-49 | empty queue and list, not playing, next id 0 |
| SidePanel.SidePanel.StopAllAudio | extension/entrypoints/sidepanel/App.tsx:51-58 | the queue is emptied and playback stops |
| SidePanel.SidePanel.PlayNextInQueue | extension/entrypoints/sidepanel/App.tsx:60-96 | queue and current clip become `NextClip`'s; an empty queue leaves the panel idle with no current audio |
| SidePanel.SidePanel.PushClip | extension/entrypoints/sidepanel/App.tsx:100-104 | makes room and pushes the clip, keeping the queue at most five and a suffix of everything enqueued |
| SidePanel.SidePanel.EnqueueAudio | extension/entrypoints/sidepanel/App.tsx:98-110 | queue and current clip become `Enqueue`'s; an idle panel never holds a queued clip afterwards |
| SidePanel.SidePanel.OnCommentary | extension/entrypoints/sidepanel/App.tsx:129-149 | appends an item with the next id via `KeepLatest`, updates the frame only when one is given, and enqueues audio only when present |
| SidePanel.SidePanel.HandleToggle | extension/entrypoints/sidepanel/App.tsx:166-175 | sends STOP_CAPTURE or START_CAPTURE; stopping also clears the list, the frame and the audio |
| ProfileSetup.SubmitProfileFields | extension/entrypoints/sidepanel/ProfileSetup.tsx:283-295 | name is the trimmed input or "Fan"; team the trimmed input or none when blank; rival none; voice "danny"; no interests; sliders from the tables with defaults 40 and 25 |
| ProfileSetup.PlayersFromFacts | extension/entrypoints/sidepanel/ProfileSetup.tsx:291 | a blank field gives no players; otherwise one trimmed piece per comma-separated part, empty pieces included |
| ProfileSetup.PlayersRoundTrip | extension/entrypoints/sidepanel/ProfileSetup.tsx:271-291 | filling the field with `join(', ')` and submitting gives back the same non-empty, trimmed, comma-free names |
| ProfileSetup.TablesMatchAgent | extension/entrypoints/sidepanel/ProfileSetup.tsx:27-38 | both tables equal the server's entry for entry, so lower-case selections give the same sliders |
| ProfileSetup.CaseSensitiveLookup | extension/entrypoints/sidepanel/ProfileSetup.tsx:288-289 | the panel's lookup is case-sensitive: "Expert" gives 40 here and 90 on the server |
| ProfileSetup.CallProfileFillsForm | extension/entrypoints/sidepanel/ProfileSetup.tsx:264-271 | a form filled from `/api/call-transcript`'s profile and submitted gives the agent's sliders whenever the returned keys are non-empty, whatever the form held, and gives back the agent's players when they are non-empty, trimmed and comma-free |
| Background.FirstMatch | extension/.output/chrome-mv3-dev/background.js:12-13 | the leftmost position where a marker is followed by eleven id characters, and none exactly when there is no such position |
| Background.ExtractVideoIdFacts | extension/.output/chrome-mv3-dev/background.js:10-14 | no or empty URL gives null; otherwise the id at the leftmost match, null exactly when nothing matches; an id is eleven characters of `[A-Za-z0-9_-]` |
| Background.VideoIdRoundTrip | extension/.output/chrome-mv3-dev/background.js:12-13 | an id placed after "v=", "/embed/" or "youtu.be/" is extracted again when nothing matches earlier |
| Background.Background.constructor | extension/.output/chrome-mv3-dev/background.js:7-9 | no tab, not capturing, no video id |
| Background.Background.HandleStartCapture | extension/.output/chrome-mv3-dev/background.js:29-60 | no tab: globals untouched, "No active tab found" stored; failure: globals reset, "Capture failed: ..." stored; success: globals set, mute sent only with a video id, capture-started sent |
| Background.Background.HandleStopCapture | extension/.output/chrome-mv3-dev/background.js:61-71 | unmute only when both a tab and a video id were set; globals reset; stop sent; "Stopped" stored |
| Background.Background.HandleStatus | extension/.output/chrome-mv3-dev/background.js:82-89 | stores the globals unchanged with the new status text |

## Left out

- The remote calls are parameters or are left out: the language model, speech synthesis, the speech-to-text websocket, the Roboflow HTTP request and the call-list requests. Their answers (reply text, detector result, parsed JSON) are inputs.
- FastAPI and websocket routing, session dictionaries, and agent and call set-up are not modelled.
- Concurrency is not modelled: asyncio tasks, the inference thread pool, the model cache and its lock, the frame-reading loops and the video forwarder.
- Floating-point and media work is not modelled: PCM conversion and resampling, the word-confidence average and duration of a final transcript, JPEG encoding, frame resizing and annotation.
- Clocks (`time.time`, `time.monotonic`, `time.perf_counter`, `Date.now`) are explicit arguments, and `random.choice` is an index argument.
- Base64 decoding and the audio element are the `decodes` parameter. The asynchronous end, error and refused-play callbacks are modelled by calling `PlayNextInQueue` again.
- JSON values of the wrong type (a non-string `experience`, a non-dict reply, JSON `null` for a defaulted key) are not modelled; every field is either present with its expected type or absent.
- JavaScript prototype keys (e.g. "toString") as emotion or experience lookups are not modelled.
- `CartesiaSTT.clear` (sending "finalize") is not modelled.
- SportsProcessor.SportsCommentaryProcessor.HandleEvent: uses one clock reading per frame where the source reads the clock twice (in `_should_comment` and in the assignment).
- SportsProcessor.SportsCommentaryProcessor.OnFrame: the detector call is an input; its failure is `None` and is skipped, as in the source.
- DetectionProcessor.LocalDetectionProcessor.OnFrame: an exception anywhere in the guarded block is the `None` input, and the frame is then skipped with nothing published. The model does not capture the one case where `event_manager.send` raises after the frame was already published.
- SportsProcessor.SportEvent: the prose description of an event, including its `missing_seconds` figure, is not modelled.
- Pipeline.BaseCommentaryPipeline.Commentate: does not model the speech audio field or the exception handlers (a websocket disconnect clears `_running`).
- CartesiaStt.CartesiaStt.Start: does not model a failing connection or the listener task start-up.
- Background.Background.HandleStartCapture: a failure of the offscreen-document creation and of the stream-id request are both the `Failed` outcome. Promise rejections of tab messages are ignored, as in the source.
- Background.Background.HandleStartCapture: on the no-tab path the stored state is inactive while `isCapturing` keeps its previous value, exactly as the source does.
- ProfileSetup.CaseSensitiveLookup: the panel's table lookup is case-sensitive while the server lower-cases. No mixed-case value reaches the form, because the select's options are lower-case and the agent lower-cases the keys it returns (`ProfileSetup.CallProfileFillsForm`). So this difference never shows.
- ProfileSetup.CallProfileFillsForm: when the agent returns an empty experience or style key, the form keeps its earlier selection. The submitted slider can then differ from the agent's 40 or 25, and the lemma does not cover that case.
- CartesiaStt.CartesiaStt.ProcessAudio: the wait for the connection at line 146 is the precondition that the plugin is closed or `start` has marked it ready. The model does not capture a chunk that waits before `start`, or the race at lines 148-150 where the event is cleared after the wait returns.
- SportsProcessor.ParseDetections: class names are lower-cased on ASCII letters only, where Python's `str.lower()` also lower-cases non-ASCII letters.
- Pipeline.Emotion: `\w` is ASCII letters, digits and `_` only, where Python's `\w` also matches non-ASCII word characters. For example, `[EMOTION:café]` gives "neutral" in the model but "café" in the source.
- Pipeline.DisplayText: a tag whose word has non-ASCII letters is kept in the model, where `_EMOTION_RE.sub` removes it (the same ASCII `\w`).
- Server.ExpertiseTable: the lookup ignores ASCII letter case only. Python's `lower()` also maps non-ASCII letters, for example the Kelvin sign in "\u212aNOWLEDGEABLE" gives 65 on the agent and 40 in the model. The same holds for Server.HotTakeTable, Server.BuildProfile's stored keys and ProfileSetup's lookups.
- Python floats are modelled as exact reals: clock readings, intervals, confidences and `AvgSpread` (Cooldown.Open, Pipeline.Debouncer.Check, SportsProcessor.DetectPlayerCluster, SportsProcessor.ParseDetections). Rounding at the `>=` and `<` boundaries is not captured: `Open(0.2, 0.1, 0.3)` holds over reals, while `0.3 - 0.1 >= 0.2` is false in Python.
- The rest of the service-worker bundle (lines 92 onward) is a vendored extension runtime and is not part of this model. So are the content script, the offscreen document and the web front end.

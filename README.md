# VoiceCollector sample sequencer

VoiceCollector is an Android app for building a voice corpus. In the app:
- each speaker records a fixed number of genuine commands at four distances (25cm, 50cm, 100cm and 300cm);
- each command is then replayed ("spoof" samples) at 25cm, 100cm and 300cm.

Each recording goes to a file whose name encodes the sample. This project models the recorder screen, `CustomizableRecorderActivity`:
- a user id field and a data id field;
- a spoof/genuine switch;
- a distance spinner;
- the derived file name and validation flag;
- the four buttons (record, play, back, next);
- the progression that moves the data id, and sometimes the spinner and the switch, after each completed recording.

Modules:
- `Options`: an Option type.
- `Decimal`: digit text and its numeric value. Kotlin's `toInt()` on a digit string is `Parse`, and `Int.toString()` is `Show`.
- `Distances`: the spinner index (0..3), its labels, and `dropLast(2)`, which removes the "cm" unit.
- `Naming`: `inputValidator`, the file name `updateFileName` derives, and a decoder proving that the name determines the sample.
- `Schedule`: the per-user plan as a table of seven stages, the `Step` one recording performs, the proof that the plan is one cycle of 200 samples, and the back button's clamp.
- `Activity`: the screen as a class. Its fields are the widgets' contents and the activity's own fields. Its methods model the listeners, the four button handlers and `stopRecording`, step by step as the code does them. `NextSample` is the nested `if`/`when` of `stopRecording`, proved equal to `Schedule.Step`.

Three facts about the code shape the model:
- validation yields a plain boolean, with no separate reason for a bad user id or a bad data id;
- the stored file name is the full path, directory included;
- nothing prevents recording and playing at the same time.

## Model

| member | source | states |
|---|---|---|
| Decimal.Show | VoiceCollector/app/src/main/java/com/example/voicecollector/CustomizableRecorderActivity.kt:184-188 | the decimal text of a number is canonical (digits, no leading zero) and is "0" exactly for 0 |
| Decimal.Parse | VoiceCollector/app/src/main/java/com/example/voicecollector/CustomizableRecorderActivity.kt:157-159 | `toInt()` on digit text: the decimal value of the digits, most significant first; the empty text never reaches it past the validator |
| Decimal.ParseShow | VoiceCollector/app/src/main/java/com/example/voicecollector/CustomizableRecorderActivity.kt:184-188 | reading back the text written for a number gives that number |
| Decimal.ShowParse | VoiceCollector/app/src/main/java/com/example/voicecollector/CustomizableRecorderActivity.kt:184-188 | on canonical text, writing back its value gives the same text |
| Decimal.LeadingZero | VoiceCollector/app/src/main/java/com/example/voicecollector/CustomizableRecorderActivity.kt:184-188 | a leading zero does not change the value read |
| Decimal.NormaliseExample | VoiceCollector/app/src/main/java/com/example/voicecollector/CustomizableRecorderActivity.kt:184 | "007" is written back as "7" |
| Decimal.ParsePositive | VoiceCollector/app/src/main/java/com/example/voicecollector/CustomizableRecorderActivity.kt:157-160 | digit text reads as a number above 0 exactly when it holds a non-zero digit |
| Distances.Label | VoiceCollector/app/src/main/java/com/example/voicecollector/CustomizableRecorderActivity.kt:186 | the selected spinner item's label: a distance in digits followed by the two-letter unit "cm" |
| Distances.DropLast | VoiceCollector/app/src/main/java/com/example/voicecollector/CustomizableRecorderActivity.kt:186 | dropping n characters keeps a prefix whose length is the old length minus n, or 0 |
| Distances.Tag | VoiceCollector/app/src/main/java/com/example/voicecollector/CustomizableRecorderActivity.kt:186 | the spinner label minus its last two characters is a non-empty digit string, and appending "cm" gives the label back |
| Distances.TagIndexTag | VoiceCollector/app/src/main/java/com/example/voicecollector/CustomizableRecorderActivity.kt:186 | distinct spinner positions give distinct name parts: the tag identifies its index |
| Naming.InputValid | VoiceCollector/app/src/main/java/com/example/voicecollector/CustomizableRecorderActivity.kt:154-162 | `inputValidator`: false when the user id text is empty or reads as <= 0, then likewise for the data id, otherwise true; an accepted input has two non-empty texts |
| Naming.InputValidMeans | VoiceCollector/app/src/main/java/com/example/voicecollector/CustomizableRecorderActivity.kt:154-162 | the validator accepts exactly when both id texts contain a non-zero digit, i.e. neither is empty nor reads as a number <= 0 |
| Naming.RefusedExamples | VoiceCollector/app/src/main/java/com/example/voicecollector/CustomizableRecorderActivity.kt:157-160 | an empty user id, or a data id of "0", is refused whatever the other field holds |
| Naming.KindPrefix | VoiceCollector/app/src/main/java/com/example/voicecollector/CustomizableRecorderActivity.kt:178-183 | the kind part of the name: "spoof-u" when the switch is on, "genuine-u" otherwise |
| Naming.FileName | VoiceCollector/app/src/main/java/com/example/voicecollector/CustomizableRecorderActivity.kt:172-189 | the name built for valid input: directory, "/", kind, numeric user id, "-", distance tag, "-d", numeric data id, ".wav" |
| Naming.FileNameShape | VoiceCollector/app/src/main/java/com/example/voicecollector/CustomizableRecorderActivity.kt:172-189 | a derived name starts with the directory and "/" and ends in ".wav" |
| Naming.DecodeFileNameOf | VoiceCollector/app/src/main/java/com/example/voicecollector/CustomizableRecorderActivity.kt:172-189 | a derived name decodes to its kind, the numeric user id, the distance and the numeric data id |
| Naming.FileNameInjective | VoiceCollector/app/src/main/java/com/example/voicecollector/CustomizableRecorderActivity.kt:172-189 | two inputs get the same file exactly when they agree on kind, distance and both numeric ids |
| Naming.GenuineExample | VoiceCollector/app/src/main/java/com/example/voicecollector/CustomizableRecorderActivity.kt:172-189 | genuine, user 5, 25cm, data 3 gives dir + "/genuine-u5-25-d3.wav" |
| Naming.SpoofExample | VoiceCollector/app/src/main/java/com/example/voicecollector/CustomizableRecorderActivity.kt:172-189 | spoof, user 5, 100cm, data 3 gives dir + "/spoof-u5-100-d3.wav" |
| Naming.LeadingZerosExample | VoiceCollector/app/src/main/java/com/example/voicecollector/CustomizableRecorderActivity.kt:184-188 | user "007" and data "03" give dir + "/genuine-u7-25-d3.wav" |
| Schedule.StageOf | VoiceCollector/app/src/main/java/com/example/voicecollector/CustomizableRecorderActivity.kt:262-311 | each switch/spinner setting the plan uses maps to its stage; spoof at 50cm maps to none |
| Schedule.Step | VoiceCollector/app/src/main/java/com/example/voicecollector/CustomizableRecorderActivity.kt:257-314 | one recording either counts the data id up by one or restarts it at 1; from user 101 on it only counts up |
| Schedule.OffsetValues | VoiceCollector/app/src/main/java/com/example/voicecollector/CustomizableRecorderActivity.kt:247-251 | the stages start at samples 0, 20, 30, 40, 50, 100 and 150 of a 200-sample cycle |
| Schedule.Pos | VoiceCollector/app/src/main/java/com/example/voicecollector/CustomizableRecorderActivity.kt:247-251 | every position inside the plan is one of the 200 samples of the cycle |
| Schedule.At | VoiceCollector/app/src/main/java/com/example/voicecollector/CustomizableRecorderActivity.kt:247-251 | every one of the 200 samples is a position inside the plan |
| Schedule.AtPos | VoiceCollector/app/src/main/java/com/example/voicecollector/CustomizableRecorderActivity.kt:247-251 | positions and samples correspond one to one |
| Schedule.StepPos | VoiceCollector/app/src/main/java/com/example/voicecollector/CustomizableRecorderActivity.kt:257-314 | for a user below 101, one recording moves a position inside the plan one sample along the cycle, wrapping after the last |
| Schedule.IterateWithinCycle | VoiceCollector/app/src/main/java/com/example/voicecollector/CustomizableRecorderActivity.kt:257-314 | n recordings that stay inside the cycle move n samples along it |
| Schedule.IterateToEnd | VoiceCollector/app/src/main/java/com/example/voicecollector/CustomizableRecorderActivity.kt:257-314 | the recordings that finish the cycle lead to genuine 25cm with data id 1 |
| Schedule.CycleReturns | VoiceCollector/app/src/main/java/com/example/voicecollector/CustomizableRecorderActivity.kt:247-314 | from any position inside the plan, 200 recordings by a user below 101 come back to it |
| Schedule.StartCycle | VoiceCollector/app/src/main/java/com/example/voicecollector/CustomizableRecorderActivity.kt:247-314 | from genuine 25cm data id 1, 200 recordings by a user below 101 give back exactly that state |
| Schedule.StartVisitsEachSampleOnce | VoiceCollector/app/src/main/java/com/example/voicecollector/CustomizableRecorderActivity.kt:247-314 | the first 200 recordings from the start are the 200 samples of the plan in order, none twice |
| Schedule.ExemptUserIterate | VoiceCollector/app/src/main/java/com/example/voicecollector/CustomizableRecorderActivity.kt:254-261 | for user ids from 101 on, any number of recordings only add to the data id; spinner and switch stay |
| Schedule.SpoofAt50Iterate | VoiceCollector/app/src/main/java/com/example/voicecollector/CustomizableRecorderActivity.kt:262-281 | spoof at 50cm has no branch: the data id counts past 50 and spinner and switch never move |
| Schedule.GenuineRolloverExample | VoiceCollector/app/src/main/java/com/example/voicecollector/CustomizableRecorderActivity.kt:285-291 | genuine 25cm at data id 20 moves to genuine 50cm at 1 |
| Schedule.SpoofRolloverExample | VoiceCollector/app/src/main/java/com/example/voicecollector/CustomizableRecorderActivity.kt:274-278 | spoof 300cm at data id 50 moves to genuine 25cm at 1 |
| Schedule.Back | VoiceCollector/app/src/main/java/com/example/voicecollector/CustomizableRecorderActivity.kt:125-129 | back lowers the data id by one exactly when it is above 1, and never below 1 |
| Schedule.BackTimesFloor | VoiceCollector/app/src/main/java/com/example/voicecollector/CustomizableRecorderActivity.kt:120-130 | n presses of back give the data id minus n, but not below 1 |
| Activity.AfterRecording | VoiceCollector/app/src/main/java/com/example/voicecollector/CustomizableRecorderActivity.kt:252-314 | the screen after a recording holds the plan's next state, with the new data id written as decimal text, and keeps the user id |
| Activity.NextSample | VoiceCollector/app/src/main/java/com/example/voicecollector/CustomizableRecorderActivity.kt:257-313 | the nested quota and rollover branches compute exactly the plan's step |
| Activity.RecorderActivity.constructor | VoiceCollector/app/src/main/java/com/example/voicecollector/CustomizableRecorderActivity.kt:30-37 | a new screen records and plays nothing, holds no device, is not validated and has an empty name |
| Activity.RecorderActivity.UpdateFileName | VoiceCollector/app/src/main/java/com/example/voicecollector/CustomizableRecorderActivity.kt:164-193 | the validity flag is the validator's verdict; on valid input the name is the derived one, otherwise the previous name stays |
| Activity.RecorderActivity.EditUserId | VoiceCollector/app/src/main/java/com/example/voicecollector/CustomizableRecorderActivity.kt:59-61 | an edit of the user id changes that field only and recomputes flag and name |
| Activity.RecorderActivity.EditDataId | VoiceCollector/app/src/main/java/com/example/voicecollector/CustomizableRecorderActivity.kt:62-64 | an edit of the data id changes that field only and recomputes flag and name |
| Activity.RecorderActivity.ToggleSpoof | VoiceCollector/app/src/main/java/com/example/voicecollector/CustomizableRecorderActivity.kt:65-67 | the switch flips and flag and name are recomputed |
| Activity.RecorderActivity.SelectDistance | VoiceCollector/app/src/main/java/com/example/voicecollector/CustomizableRecorderActivity.kt:69-82 | the spinner moves and flag and name are recomputed |
| Activity.RecorderActivity.StartRecording | VoiceCollector/app/src/main/java/com/example/voicecollector/CustomizableRecorderActivity.kt:222-238 | the recorder is opened on the current file name |
| Activity.RecorderActivity.StartPlaying | VoiceCollector/app/src/main/java/com/example/voicecollector/CustomizableRecorderActivity.kt:209-215 | the player is opened on the current file name |
| Activity.RecorderActivity.StopPlaying | VoiceCollector/app/src/main/java/com/example/voicecollector/CustomizableRecorderActivity.kt:217-220 | the player is released |
| Activity.RecorderActivity.StopRecording | VoiceCollector/app/src/main/java/com/example/voicecollector/CustomizableRecorderActivity.kt:240-315 | the recorder is released, the screen moves to the plan's next sample, and flag and name are recomputed (valid whenever the user id is) |
| Activity.RecorderActivity.PressRecord | VoiceCollector/app/src/main/java/com/example/voicecollector/CustomizableRecorderActivity.kt:87-101 | after recomputing, invalid input changes nothing else; valid input starts recording into the derived file, or stops and advances the plan exactly once |
| Activity.RecorderActivity.ToggleRecording | VoiceCollector/app/src/main/java/com/example/voicecollector/CustomizableRecorderActivity.kt:92-100 | past the guard: start into the derived file, or stop and advance the plan, then flip the flag |
| Activity.RecorderActivity.PressPlay | VoiceCollector/app/src/main/java/com/example/voicecollector/CustomizableRecorderActivity.kt:103-117 | after recomputing, invalid input changes nothing else; valid input starts playing the derived file or stops, and the screen stays |
| Activity.RecorderActivity.TogglePlaying | VoiceCollector/app/src/main/java/com/example/voicecollector/CustomizableRecorderActivity.kt:108-116 | past the guard: open or release the player and flip the flag |
| Activity.RecorderActivity.PressBack | VoiceCollector/app/src/main/java/com/example/voicecollector/CustomizableRecorderActivity.kt:120-130 | after recomputing, invalid input changes nothing else; valid input sets the data id one lower but not below 1, nothing else on screen moves, and the name is recomputed |
| Activity.RecorderActivity.StepBack | VoiceCollector/app/src/main/java/com/example/voicecollector/CustomizableRecorderActivity.kt:125-129 | past the guard: the data id text becomes the clamped decrement and the name follows |
| Activity.RecorderActivity.PressNext | VoiceCollector/app/src/main/java/com/example/voicecollector/CustomizableRecorderActivity.kt:132-142 | after recomputing, invalid input changes nothing else; valid input counts the data id up by one with no rollover, and nothing else on screen moves |
| Activity.RecorderActivity.StepNext | VoiceCollector/app/src/main/java/com/example/voicecollector/CustomizableRecorderActivity.kt:139-141 | past the guard: the data id text becomes the next number and the name follows |

## Left out

- Integer width: ids are unbounded naturals. The 32-bit overflow of `Int` and the exception `toInt()` raises on a digit string too long for it are not modelled. The key listener (lines 84-85) allows only digits, so the id texts are digit strings throughout.
- Audio devices: MediaRecorder and MediaPlayer configuration, prepare/start/stop and their failures are foreign platform calls. The recorder and the player are modelled only as the path they were opened on (`Some(fileName)`) or `None` once released.
- Directory: `getExternalFilesDir` is a constructor parameter, `musicDir`.
- Spinner labels: they come from a resource file that is not part of this model. They are taken to be "25cm", "50cm", "100cm" and "300cm", the distances the comment at lines 248-250 names.
- Callbacks: `setText`, `setSelection` and `isChecked` re-fire the listeners, and the spinner's callback arrives later. Each change is modelled as a single recompute of flag and name.
- Activity.RecorderActivity.constructor: it does not run the spinner's first selection callback, so a new screen starts unvalidated with an empty name, as the field initialisers say.
- `onStop` (lines 146-152) is left out. It releases the devices without resetting `isRecording`/`isPlaying`, so it would break the invariant that a device is held exactly while its flag is on.
- The permission request and result (lines 56, 195-207), the Toast (line 168), button texts and layout wiring are UI plumbing.
- Record/play exclusion: there is none in the code, so none is modelled.
- Distance range: the spinner index is the type `DistIndex` (0..3), so staying in range needs no lemma.
- MediaRecorderActivity.kt and MainActivity.kt are not part of this model. They only wrap the audio devices with a fixed name and launch an activity.

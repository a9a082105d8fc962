/** The recorder screen: its widgets, its fields and its button handlers. */
module Activity {
  import opened Options
  import opened Decimal
  import opened Distances
  import opened Naming
  import opened Schedule

  /** The four inputs on screen: the two id fields, the spoof switch and the
      distance spinner */
  datatype Inputs = Inputs(userIdText: string, dataIdText: string, spoof: bool, dist: DistIndex)

  predicate WellFormed(w: Inputs) {
    IsDigits(w.userIdText) && IsDigits(w.dataIdText)
  }

  /** The inputs after a completed recording: the plan's step, with the new
      data id written into its field */
  function AfterRecording(w: Inputs): (w': Inputs)
    requires WellFormed(w)
    ensures WellFormed(w') && w'.userIdText == w.userIdText
    ensures Step(Progress(w.spoof, w.dist, Parse(w.dataIdText)), Parse(w.userIdText))
            == Progress(w'.spoof, w'.dist, Parse(w'.dataIdText))
  {
    var q := Step(Progress(w.spoof, w.dist, Parse(w.dataIdText)), Parse(w.userIdText));
    ParseShow(q.dataId);
    Inputs(w.userIdText, Show(q.dataId), q.spoof, q.dist)
  }

  /** The audio devices: whether recording and playing are on, and the file
      the open recorder writes and the open player reads (None for a
      released device) */
  datatype Devices = Devices(isRecording: bool, isPlaying: bool, recorder: Option<string>, player: Option<string>)

  /** The dataId, distance and spoof progression of `stopRecording`: count
      the data id on and, for a user below 101 whose quota for the current
      setting is used up, restart at 1 in the next setting */
  method NextSample(userId: nat, spoof: bool, dist: DistIndex, dataId: nat)
    returns (checked: bool, selection: DistIndex, currentDataId: nat)
    ensures Progress(checked, selection, currentDataId) == Step(Progress(spoof, dist, dataId), userId)
  {
    checked, selection := spoof, dist;
    currentDataId := dataId + 1;
    if userId < 101 {
      if checked {
        if currentDataId > 50 {
          if selection == 0 {
            currentDataId := 1;
            selection := 2;
          } else if selection == 2 {
            currentDataId := 1;
            selection := 3;
          } else if selection == 3 {
            currentDataId := 1;
            selection := 0;
            checked := false;
          }
        }
      } else {
        if selection == 0 {
          if currentDataId > 20 {
            currentDataId := 1;
            selection := 1;
          }
        } else if selection == 1 {
          if currentDataId > 10 {
            currentDataId := 1;
            selection := 2;
          }
        } else if selection == 2 {
          if currentDataId > 10 {
            currentDataId := 1;
            selection := 3;
          }
        } else {
          if currentDataId > 10 {
            currentDataId := 1;
            selection := 0;
            checked := true;
          }
        }
      }
    }
  }

  class RecorderActivity {
    /** The app's external music directory */
    const musicDir: string

    var userIdText: string
    var dataIdText: string
    var spoof: bool
    var distIdx: DistIndex

    var isRecording: bool
    var isPlaying: bool
    var inputComplete: bool
    var fileName: string

    var recorder: Option<string>
    var player: Option<string>

    /** The id fields hold digits only */
    ghost predicate Typed()
      reads this
    {
      IsDigits(userIdText) && IsDigits(dataIdText)
    }

    /** ... and a device is held exactly while its toggle is on */
    ghost predicate Valid()
      reads this
    {
      Typed() && (recorder.Some? <==> isRecording) && (player.Some? <==> isPlaying)
    }

    function Screen(): Inputs
      reads this
    {
      Inputs(userIdText, dataIdText, spoof, distIdx)
    }

    function Audio(): Devices
      reads this
    {
      Devices(isRecording, isPlaying, recorder, player)
    }

    /** The name derived from what is on screen now */
    function Derived(): string
      reads this
      requires Typed()
    {
      FileName(musicDir, spoof, userIdText, distIdx, dataIdText)
    }

    /** The validation flag and the name agree with the screen; an invalid
        screen keeps the name `previous` */
    ghost predicate UpToDate(previous: string)
      reads this
      requires Typed()
    {
      inputComplete == InputValid(userIdText, dataIdText)
      && fileName == if inputComplete then Derived() else previous
    }

    /** The activity as it is created, with the widgets' initial contents */
    constructor (musicDir: string, userIdText: string, dataIdText: string, spoof: bool, distIdx: DistIndex)
      requires IsDigits(userIdText) && IsDigits(dataIdText)
      ensures Valid() && this.musicDir == musicDir
      ensures Screen() == Inputs(userIdText, dataIdText, spoof, distIdx)
      ensures Audio() == Devices(false, false, None, None)
      ensures !inputComplete && fileName == ""
    {
      this.musicDir := musicDir;
      this.userIdText := userIdText;
      this.dataIdText := dataIdText;
      this.spoof := spoof;
      this.distIdx := distIdx;
      isRecording := false;
      isPlaying := false;
      inputComplete := false;
      fileName := "";
      recorder := None;
      player := None;
    }

    /** `updateFileName`: validate, and on valid input build the name piece
        by piece */
    method UpdateFileName()
      requires Typed()
      modifies this`inputComplete, this`fileName
      ensures Typed() && UpToDate(old(fileName))
    {
      if !InputValid(userIdText, dataIdText) {
        inputComplete := false;
        return;
      }
      inputComplete := true;
      var name := musicDir + "/";
      if spoof {
        name := name + "spoof-u";
      } else {
        name := name + "genuine-u";
      }
      name := name + Show(Parse(userIdText));
      name := name + "-";
      name := name + DropLast(Label(distIdx), 2);
      name := name + "-d";
      name := name + Show(Parse(dataIdText));
      name := name + ".wav";
      fileName := name;
    }

    // The listeners on the four inputs: each change recomputes once.

    method EditUserId(text: string)
      requires Valid() && IsDigits(text)
      modifies this
      ensures Valid() && UpToDate(old(fileName))
      ensures Screen() == old(Screen()).(userIdText := text) && Audio() == old(Audio())
    {
      userIdText := text;
      UpdateFileName();
    }

    method EditDataId(text: string)
      requires Valid() && IsDigits(text)
      modifies this
      ensures Valid() && UpToDate(old(fileName))
      ensures Screen() == old(Screen()).(dataIdText := text) && Audio() == old(Audio())
    {
      dataIdText := text;
      UpdateFileName();
    }

    method ToggleSpoof()
      requires Valid()
      modifies this
      ensures Valid() && UpToDate(old(fileName))
      ensures Screen() == old(Screen()).(spoof := !old(spoof)) && Audio() == old(Audio())
    {
      spoof := !spoof;
      UpdateFileName();
    }

    method SelectDistance(i: DistIndex)
      requires Valid()
      modifies this
      ensures Valid() && UpToDate(old(fileName))
      ensures Screen() == old(Screen()).(dist := i) && Audio() == old(Audio())
    {
      distIdx := i;
      UpdateFileName();
    }

    // The audio devices, as far as this model sees them.

    method StartRecording()
      modifies this`recorder
      ensures recorder == Some(fileName)
    {
      recorder := Some(fileName);
    }

    method StartPlaying()
      modifies this`player
      ensures player == Some(fileName)
    {
      player := Some(fileName);
    }

    method StopPlaying()
      modifies this`player
      ensures player == None
    {
      player := None;
    }

    /** `stopRecording`: release the recorder, then count the data id on and,
        for a user inside the plan whose stage is used up, restart it at 1 in
        the next stage; both ids are read with `toInt()`, which needs text */
    method StopRecording()
      requires Typed() && userIdText != [] && dataIdText != []
      modifies this`recorder, this`dataIdText, this`distIdx, this`spoof, this`inputComplete, this`fileName
      ensures Typed() && recorder == None
      ensures Screen() == AfterRecording(old(Screen()))
      ensures UpToDate(old(fileName))
      ensures Parse(userIdText) > 0 ==> inputComplete
    {
      recorder := None;
      var checked, selection, currentDataId := NextSample(Parse(userIdText), spoof, distIdx, Parse(dataIdText));
      distIdx := selection;
      spoof := checked;
      dataIdText := Show(currentDataId);
      UpdateFileName();
    }

    // The four buttons: each first recomputes and does nothing more when the
    // input is invalid.

    /** What the record button does to valid input: it starts recording
        into the derived file, or stops and advances the plan */
    ghost predicate RecordToggled(s0: Inputs, a0: Devices)
      reads this
      requires Typed() && WellFormed(s0)
    {
      inputComplete && fileName == Derived()
      && if a0.isRecording then
           Screen() == AfterRecording(s0) && Audio() == a0.(isRecording := false, recorder := None)
         else
           Screen() == s0 && Audio() == a0.(isRecording := true, recorder := Some(fileName))
    }

    /** The record button's handler */
    method PressRecord()
      requires Valid()
      modifies this
      ensures Valid()
      ensures inputComplete == InputValid(old(userIdText), old(dataIdText))
      ensures !inputComplete ==> Screen() == old(Screen()) && Audio() == old(Audio()) && fileName == old(fileName)
      ensures inputComplete ==> RecordToggled(old(Screen()), old(Audio()))
    {
      UpdateFileName();
      if !inputComplete {
        return;
      }
      ToggleRecording();
    }

    /** The record handler past its guard */
    method ToggleRecording()
      requires Valid() && InputValid(userIdText, dataIdText) && inputComplete && fileName == Derived()
      modifies this
      ensures Valid() && RecordToggled(old(Screen()), old(Audio()))
    {
      if isRecording {
        StopRecording();
      } else {
        StartRecording();
      }
      isRecording := !isRecording;
    }

    /** What the play button does to valid input: it starts playing the
        derived file, or stops */
    ghost predicate PlayToggled(s0: Inputs, a0: Devices)
      reads this
      requires Typed()
    {
      inputComplete && fileName == Derived() && Screen() == s0
      && Audio() == a0.(isPlaying := !a0.isPlaying, player := if a0.isPlaying then None else Some(fileName))
    }

    /** The play button's handler */
    method PressPlay()
      requires Valid()
      modifies this
      ensures Valid()
      ensures inputComplete == InputValid(old(userIdText), old(dataIdText))
      ensures !inputComplete ==> Screen() == old(Screen()) && Audio() == old(Audio()) && fileName == old(fileName)
      ensures inputComplete ==> PlayToggled(old(Screen()), old(Audio()))
    {
      UpdateFileName();
      if !inputComplete {
        return;
      }
      TogglePlaying();
    }

    /** The play handler past its guard */
    method TogglePlaying()
      requires Valid() && InputValid(userIdText, dataIdText) && inputComplete && fileName == Derived()
      modifies this
      ensures Valid() && PlayToggled(old(Screen()), old(Audio()))
    {
      if isPlaying {
        StopPlaying();
      } else {
        StartPlaying();
      }
      isPlaying := !isPlaying;
    }

    /** The data id field was set to `text` and the name recomputed from it */
    ghost predicate DataIdSet(s0: Inputs, text: string)
      reads this
      requires Typed()
    {
      inputComplete && fileName == Derived() && Screen() == s0.(dataIdText := text)
    }

    /** The back button's handler: one data id back, but not below 1; no
        stage moves back */
    method PressBack()
      requires Valid()
      modifies this
      ensures Valid() && Audio() == old(Audio())
      ensures inputComplete == InputValid(old(userIdText), old(dataIdText))
      ensures !inputComplete ==> Screen() == old(Screen()) && fileName == old(fileName)
      ensures inputComplete ==> DataIdSet(old(Screen()), Show(Back(Parse(old(dataIdText)))))
    {
      UpdateFileName();
      if !inputComplete {
        return;
      }
      StepBack();
    }

    /** The back handler past its guard */
    method StepBack()
      requires Valid() && InputValid(userIdText, dataIdText)
      modifies this
      ensures Valid() && Audio() == old(Audio())
      ensures DataIdSet(old(Screen()), Show(Back(Parse(old(dataIdText)))))
    {
      var dataId := Parse(dataIdText);
      if dataId > 1 {
        dataId := dataId - 1;
      }
      ParseShow(dataId);
      EditDataId(Show(dataId));
    }

    /** The next button's handler: one data id on, with no stage change
        whatever the quota */
    method PressNext()
      requires Valid()
      modifies this
      ensures Valid() && Audio() == old(Audio())
      ensures inputComplete == InputValid(old(userIdText), old(dataIdText))
      ensures !inputComplete ==> Screen() == old(Screen()) && fileName == old(fileName)
      ensures inputComplete ==> DataIdSet(old(Screen()), Show(Parse(old(dataIdText)) + 1))
    {
      UpdateFileName();
      if !inputComplete {
        return;
      }
      StepNext();
    }

    /** The next handler past its guard */
    method StepNext()
      requires Valid() && InputValid(userIdText, dataIdText)
      modifies this
      ensures Valid() && Audio() == old(Audio())
      ensures DataIdSet(old(Screen()), Show(Parse(old(dataIdText)) + 1))
    {
      var currentDataId := Parse(dataIdText) + 1;
      ParseShow(currentDataId);
      EditDataId(Show(currentDataId));
    }
  }
}

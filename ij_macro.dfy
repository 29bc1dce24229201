/**
 * Running an ImageJ1 macro on host images: the images are staged into the shared ImageJ1
 * environment under their names, the shared results table is reset, the macro runs, the last
 * batch-mode image is taken as the result and matched back to an input by title, and the
 * environment's images are removed one by one.
 *
 * The ImageJ1 statics (the interpreter's batch-mode images and batch-mode flag, the system
 * results table) are an object of class `ImageJ1`; a ghost event log records the calls made
 * on it, in order. The macro interpreter is a parameter that says what the run leaves behind.
 */
module ImageJ1Macro {
  import opened Wrappers

  /** The pixel type of an image (a RealType). */
  datatype PixelType = PixelType(name: string)

  /** Descriptive metadata of an image: its name and axes. */
  datatype Metadata = Metadata(name: string, axes: seq<string>)

  /** A host image (an ImgPlus); `metadata` is present when the image is ImgPlusMetadata. */
  datatype HostImage = HostImage(ndim: nat, pixelType: PixelType, metadata: Option<Metadata>)

  /** An ImageJ1 image (an ImagePlus), as a value: two images of equal title and shape are equal. */
  datatype ForeignImage = ForeignImage(title: string, ndim: nat, pixelType: PixelType)

  /** The conversion to an ImagePlus (`ImgToIJ`), as far as shape and type go; the title is empty. */
  function ToForeign(img: HostImage): ForeignImage
  {
    ForeignImage("", img.ndim, img.pixelType)
  }

  /** `IJToImg.createMatchingType`: the pixel type an ImagePlus naturally converts to. */
  function CreateMatchingType(p: ForeignImage): PixelType
  {
    p.pixelType
  }

  /**
   * The conversion back (`IJToImg`) with a pixel type and a target dimensionality; a target
   * of -1 keeps the ImagePlus's own dimensionality. The result carries no metadata.
   */
  function ToHost(t: PixelType, ndim: int, p: ForeignImage): HostImage
  {
    HostImage(if ndim >= 0 then ndim else p.ndim, t, None)
  }

  /** The ImagePlus staged for the input named `key`: the converted image, titled `key`. */
  function StagedImage(key: string, img: HostImage): ForeignImage
  {
    ToForeign(img).(title := key)
  }

  /** `staged` is one staged image per input, each titled with its key, in some order. */
  ghost predicate IsStagingOf(imgs: map<string, HostImage>, staged: seq<ForeignImage>)
  {
    && |staged| == |imgs|
    && (forall i :: 0 <= i < |staged| ==>
          staged[i].title in imgs && staged[i] == StagedImage(staged[i].title, imgs[staged[i].title]))
    && (forall i, j :: 0 <= i < j < |staged| ==> staged[i].title != staged[j].title)
    && (forall k :: k in imgs ==> StagedImage(k, imgs[k]) in staged)
  }

  /** The inputs outside `keys` are staged, each once, titled with its key. */
  ghost predicate PartialStaging(imgs: map<string, HostImage>, keys: set<string>, staged: seq<ForeignImage>)
  {
    && keys <= imgs.Keys
    && |staged| + |keys| == |imgs.Keys|
    && (forall i :: 0 <= i < |staged| ==>
          staged[i].title in imgs && staged[i].title !in keys
          && staged[i] == StagedImage(staged[i].title, imgs[staged[i].title]))
    && (forall i, j :: 0 <= i < j < |staged| ==> staged[i].title != staged[j].title)
    && (forall k :: k in imgs && k !in keys ==> StagedImage(k, imgs[k]) in staged)
  }

  /** Staging one more key keeps the partial staging. */
  lemma StagingStep(imgs: map<string, HostImage>, keys: set<string>, staged: seq<ForeignImage>, key: string)
    requires PartialStaging(imgs, keys, staged) && key in keys
    ensures PartialStaging(imgs, keys - {key}, staged + [StagedImage(key, imgs[key])])
  {
  }

  /** With no key left, the partial staging is a staging. */
  lemma StagingDone(imgs: map<string, HostImage>, staged: seq<ForeignImage>)
    requires PartialStaging(imgs, {}, staged)
    ensures IsStagingOf(imgs, staged)
  {
    assert |imgs| == |imgs.Keys|;
  }

  /** With one input under "A", staging produces exactly that one image. */
  lemma StagingOfSingle(img: HostImage, staged: seq<ForeignImage>)
    requires IsStagingOf(map["A" := img], staged)
    ensures staged == [StagedImage("A", img)]
  {
    assert |map["A" := img]| == 1;
  }

  /** The result image means: the matched input's dimensionality and metadata, or none matched. */
  ghost predicate ResolvedFrom(imgs: map<string, HostImage>, t: PixelType, p: ForeignImage, r: HostImage)
  {
    && r.pixelType == t
    && r.ndim == (if p.title in imgs then imgs[p.title].ndim else p.ndim)
    && r.metadata == (if p.title in imgs then imgs[p.title].metadata else None)
  }

  /** The last element, if any. */
  function LastImage(s: seq<ForeignImage>): Option<ForeignImage>
  {
    if s == [] then None else Some(s[|s| - 1])
  }

  /**
   * Removes the first image equal to `x`. On ImagePlus objects, `Vector.removeElement` removes the
   * object itself; the two differ only when value-equal images are in the list.
   */
  function RemoveFirst(s: seq<ForeignImage>, x: ForeignImage): (r: seq<ForeignImage>)
    ensures x in s ==> |r| == |s| - 1 && multiset(r) == multiset(s) - multiset{x}
    ensures x !in s ==> r == s
  {
    if s == [] then []
    else
      assert s == [s[0]] + s[1..];
      if s[0] == x then s[1..] else [s[0]] + RemoveFirst(s[1..], x)
  }

  /** What a macro run leaves behind: the batch-mode images, the table's rows, and whether it threw. */
  datatype MacroRun = MacroRun(images: seq<ForeignImage>, tableRows: nat, raises: bool)

  /** Calls made on the environment, in order. */
  datatype Event =
    | Registered(image: ForeignImage)
    | MacroRan(code: string, tableRowsAtStart: nat, imagesAtStart: seq<ForeignImage>)
    | Removed(image: ForeignImage)
    | Closed(image: ForeignImage)
    | WindowsClosed

  ghost function Registrations(s: seq<ForeignImage>): (r: seq<Event>)
  {
    seq(|s|, i requires 0 <= i < |s| => Registered(s[i]))
  }

  ghost function CleanUps(s: seq<ForeignImage>): (r: seq<Event>)
  {
    if s == [] then [] else CleanUps(s[..|s| - 1]) + [Removed(s[|s| - 1]), Closed(s[|s| - 1])]
  }

  /** Removing the current (last) image lowers the count and takes one occurrence out. */
  lemma RemoveCurrent(s: seq<ForeignImage>)
    requires s != []
    ensures |RemoveFirst(s, s[|s| - 1])| < |s|
    ensures multiset(RemoveFirst(s, s[|s| - 1])) + multiset{s[|s| - 1]} == multiset(s)
  {
  }

  /** One more removed image adds its removal and its closing to the clean-up events. */
  lemma CleanUpsAppend(s: seq<ForeignImage>, x: ForeignImage)
    ensures CleanUps(s + [x]) == CleanUps(s) + [Removed(x), Closed(x)]
  {
    assert (s + [x])[..|s|] == s;
  }

  /** Regrouping of the log after two appends, kept apart so the loop proof stays small. */
  lemma AppendTwo(a: seq<Event>, b: seq<Event>, x: Event, y: Event)
    ensures a + b + [x] + [y] == a + (b + [x, y])
  {
  }

  datatype MacroError = MacroRaised

  /** The shared ImageJ1 results table. */
  class ResultsTable {
    var rowCount: nat

    constructor ()
      ensures rowCount == 0
    {
      rowCount := 0;
    }

    method Reset()
      modifies this
      ensures rowCount == 0
    {
      rowCount := 0;
    }
  }

  /** The ImageJ1 environment: the interpreter's batch-mode state and the system results table. */
  class ImageJ1 {
    var batchMode: bool
    var batchImages: seq<ForeignImage>
    const resultsTable: ResultsTable
    ghost var log: seq<Event>

    constructor ()
      ensures !batchMode && batchImages == [] && log == []
      ensures fresh(resultsTable) && resultsTable.rowCount == 0
    {
      batchMode := false;
      batchImages := [];
      resultsTable := new ResultsTable();
      log := [];
    }

    /** `ResultsTable.getResultsTable()`: the one system table. */
    function GetResultsTable(): ResultsTable
    {
      resultsTable
    }

    /** `Interpreter.addBatchModeImage`. */
    method AddBatchModeImage(img: ForeignImage)
      modifies this
      ensures batchImages == old(batchImages) + [img]
      ensures log == old(log) + [Registered(img)]
      ensures batchMode == old(batchMode)
    {
      batchImages := batchImages + [img];
      log := log + [Registered(img)];
    }

    /** `WindowManager.getImageCount()`: in batch mode, the number of batch-mode images. */
    function ImageCount(): nat
      reads this
    {
      |batchImages|
    }

    /** `Interpreter.getLastBatchModeImage()`. */
    function LastBatchModeImage(): Option<ForeignImage>
      reads this
    {
      LastImage(batchImages)
    }

    /** `WindowManager.getCurrentImage()`: in batch mode, the most recent batch-mode image. */
    function CurrentImage(): ForeignImage
      reads this
      requires ImageCount() > 0
    {
      batchImages[|batchImages| - 1]
    }

    /** `Interpreter.removeBatchModeImage`. */
    method RemoveBatchModeImage(img: ForeignImage)
      modifies this
      ensures batchImages == RemoveFirst(old(batchImages), img)
      ensures log == old(log) + [Removed(img)]
      ensures batchMode == old(batchMode)
    {
      batchImages := RemoveFirst(batchImages, img);
      log := log + [Removed(img)];
    }

    /** `ImagePlus.close()` on an image already removed from the batch-mode list. */
    method Close(img: ForeignImage)
      modifies this
      ensures batchImages == old(batchImages) && batchMode == old(batchMode)
      ensures log == old(log) + [Closed(img)]
    {
      log := log + [Closed(img)];
    }

    /** `inter.run(code, "")`: the run's effect is the parameter `run`. */
    method RunMacro(code: string, run: MacroRun)
      modifies this, resultsTable
      ensures batchImages == run.images && resultsTable.rowCount == run.tableRows
      ensures log == old(log) + [MacroRan(code, old(resultsTable.rowCount), old(batchImages))]
      ensures batchMode == old(batchMode)
    {
      log := log + [MacroRan(code, resultsTable.rowCount, batchImages)];
      batchImages := run.images;
      resultsTable.rowCount := run.tableRows;
    }

    /** `WindowManager.closeAllWindows()`. */
    method CloseAllWindows()
      modifies this
      ensures batchImages == old(batchImages) && batchMode == old(batchMode)
      ensures log == old(log) + [WindowsClosed]
    {
      log := log + [WindowsClosed];
    }
  }

  /** One macro, its last result image and the results table of its last run. */
  class IJMacro {
    const code: string
    const ij: ImageJ1
    var resImg: Option<HostImage>
    var resTable: ResultsTable?

    /** The table a run keeps is the environment's shared system table. */
    ghost predicate Valid()
      reads this
    {
      resTable == null || resTable == ij.resultsTable
    }

    /** Stores the code and switches the interpreter to batch mode. */
    constructor (code: string, ij: ImageJ1)
      modifies ij
      ensures this.code == code && this.ij == ij
      ensures resImg == None && resTable == null
      ensures Valid()
      ensures ij.batchMode
      ensures ij.batchImages == old(ij.batchImages) && ij.log == old(ij.log)
    {
      this.code := code;
      this.ij := ij;
      resImg := None;
      resTable := null;
      ij.batchMode := true;
    }

    /** `resImgPlus()`. */
    function ResImgPlus(): (r: Option<HostImage>)
      reads this
      ensures r == resImg
    {
      resImg
    }

    /** `resTable()`. */
    function ResTable(): (r: ResultsTable?)
      reads this
      requires Valid()
      ensures r == resTable
      ensures r == null || r == ij.GetResultsTable()
    {
      resTable
    }

    /** `runOn(img, matchingType)`: the one image is the input named "A". */
    method RunOn(img: HostImage, matchingType: Option<PixelType>, run: MacroRun)
      returns (r: Result<Option<PixelType>, MacroError>, ghost staged: seq<ForeignImage>, ghost removed: seq<ForeignImage>)
      requires ij.batchMode
      modifies this, ij, ij.resultsTable
      ensures staged == [StagedImage("A", img)]
      ensures Valid() && resTable == ij.resultsTable && ij.batchMode == old(ij.batchMode)
      ensures ij.log == old(ij.log) + [Registered(StagedImage("A", img))]
                        + [MacroRan(code, 0, old(ij.batchImages) + staged)]
                        + (if run.raises then [] else CleanUps(removed) + [WindowsClosed])
      ensures ij.resultsTable.rowCount == run.tableRows
      ensures run.raises ==> r.Failure? && ij.batchImages == run.images && resImg == old(resImg)
      ensures !run.raises ==> ij.batchImages == [] && multiset(removed) == multiset(run.images)
      ensures !run.raises ==>
                var last := LastImage(run.images);
                var t := if matchingType.None? && last.Some? then Some(CreateMatchingType(last.value)) else matchingType;
                && r == Success(t)
                && (last.None? ==> resImg == old(resImg))
                && (last.Some? ==> resImg.Some? && t.Some? && ResolvedFrom(map["A" := img], t.value, last.value, resImg.value))
    {
      var m := map["A" := img];
      r, staged, removed := RunOnAll(m, matchingType, run);
      StagingOfSingle(img, staged);
    }

    /**
     * `runOn(imgs, matchingType)`: stage every input, reset the table, run the macro, resolve the
     * result, then remove every image. A run that throws skips the resolution and the clean-up.
     */
    method RunOnAll(imgs: map<string, HostImage>, matchingType: Option<PixelType>, run: MacroRun)
      returns (r: Result<Option<PixelType>, MacroError>, ghost staged: seq<ForeignImage>, ghost removed: seq<ForeignImage>)
      requires ij.batchMode
      modifies this, ij, ij.resultsTable
      ensures IsStagingOf(imgs, staged)
      ensures Valid() && resTable == ij.resultsTable && ij.batchMode == old(ij.batchMode)
      ensures ij.log == old(ij.log) + Registrations(staged)
                        + [MacroRan(code, 0, old(ij.batchImages) + staged)]
                        + (if run.raises then [] else CleanUps(removed) + [WindowsClosed])
      ensures ij.resultsTable.rowCount == run.tableRows
      ensures run.raises ==> r.Failure? && ij.batchImages == run.images && resImg == old(resImg)
      ensures !run.raises ==> ij.batchImages == [] && multiset(removed) == multiset(run.images)
      ensures !run.raises ==>
                var last := LastImage(run.images);
                var t := if matchingType.None? && last.Some? then Some(CreateMatchingType(last.value)) else matchingType;
                && r == Success(t)
                && (last.None? ==> resImg == old(resImg))
                && (last.Some? ==> resImg.Some? && t.Some? && ResolvedFrom(imgs, t.value, last.value, resImg.value))
    {
      resTable := ij.GetResultsTable();
      staged := Stage(imgs);
      resTable.Reset();
      ij.RunMacro(code, run);
      if run.raises {
        removed := [];
        return Failure(MacroRaised), staged, removed;
      }
      var mt := Resolve(imgs, matchingType);
      removed := CleanUp();
      r := Success(mt);
    }

    /** Converts every input, titles it with its key and registers it as a batch-mode image. */
    method Stage(imgs: map<string, HostImage>) returns (ghost staged: seq<ForeignImage>)
      modifies ij
      ensures IsStagingOf(imgs, staged)
      ensures ij.batchImages == old(ij.batchImages) + staged
      ensures ij.log == old(ij.log) + Registrations(staged)
      ensures ij.batchMode == old(ij.batchMode)
    {
      // The map's iteration order is unspecified.
      var keys := imgs.Keys;
      staged := [];
      while keys != {}
        invariant PartialStaging(imgs, keys, staged)
        invariant ij.batchImages == old(ij.batchImages) + staged
        invariant ij.log == old(ij.log) + Registrations(staged)
        invariant ij.batchMode == old(ij.batchMode)
        decreases keys
      {
        var key :| key in keys;
        var plus := ToForeign(imgs[key]);
        plus := plus.(title := key);
        ij.AddBatchModeImage(plus);
        StagingStep(imgs, keys, staged, key);
        assert ij.log == old(ij.log) + Registrations(staged + [plus]) by {
          assert Registrations(staged + [plus]) == Registrations(staged) + [Registered(plus)];
        }
        staged := staged + [plus];
        keys := keys - {key};
      }
      StagingDone(imgs, staged);
    }

    /** Takes the last batch-mode image as the result and matches it to an input by title. */
    method Resolve(imgs: map<string, HostImage>, matchingType: Option<PixelType>) returns (mt: Option<PixelType>)
      modifies this`resImg
      ensures var last := ij.LastBatchModeImage();
              && mt == (if matchingType.None? && last.Some? then Some(CreateMatchingType(last.value)) else matchingType)
              && (last.None? ==> resImg == old(resImg))
              && (last.Some? ==> resImg.Some? && mt.Some? && ResolvedFrom(imgs, mt.value, last.value, resImg.value))
    {
      mt := matchingType;
      var resPlus := ij.LastBatchModeImage();
      if resPlus.Some? {
        var p := resPlus.value;
        var org: Option<HostImage> := if p.title in imgs then Some(imgs[p.title]) else None;
        // A result titled like an input takes that input's dimensionality; any other keeps its own (-1).
        var ndim: int := if org.Some? then org.value.ndim else -1;
        if mt.None? {
          mt := Some(CreateMatchingType(p));
        }
        var res := ToHost(mt.value, ndim, p);
        if org.Some? && org.value.metadata.Some? {
          // Metadata is copied only from a matched input that has some.
          resImg := Some(res.(metadata := org.value.metadata));
        } else {
          resImg := Some(res);
        }
      }
    }

    /** Removes the current image until none is left, then closes all windows. */
    method CleanUp() returns (ghost removed: seq<ForeignImage>)
      modifies ij
      ensures ij.batchImages == []
      ensures multiset(removed) == multiset(old(ij.batchImages))
      ensures ij.log == old(ij.log) + CleanUps(removed) + [WindowsClosed]
      ensures ij.batchMode == old(ij.batchMode)
    {
      ghost var initial := ij.batchImages;
      ghost var initialLog := ij.log;
      removed := [];
      while ij.ImageCount() > 0
        invariant multiset(removed) + multiset(ij.batchImages) == multiset(initial)
        invariant ij.log == initialLog + CleanUps(removed)
        invariant ij.batchMode == old(ij.batchMode)
        decreases |ij.batchImages|
      {
        var current := ij.CurrentImage();
        ghost var before := ij.batchImages;
        ghost var logBefore := ij.log;
        ij.RemoveBatchModeImage(current);
        ij.Close(current);
        assert multiset(removed + [current]) + multiset(ij.batchImages) == multiset(initial) by {
          RemoveCurrent(before);
          assert multiset(removed + [current]) == multiset(removed) + multiset{current};
        }
        assert ij.log == initialLog + CleanUps(removed + [current]) by {
          CleanUpsAppend(removed, current);
          AppendTwo(initialLog, CleanUps(removed), Removed(current), Closed(current));
        }
        removed := removed + [current];
      }
      assert ij.batchImages == [];
      ij.CloseAllWindows();
    }
  }
}

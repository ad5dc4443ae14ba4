/** The private credential file on the workstation: written in pieces, handed to the copy command,
    overwritten with zeros in pieces, and unlinked.  Any system call may fail or be interrupted, before
    or after taking effect, and any write may be short. */
module LocalSecret {
  import opened Prelude
  import opened Secrets

  /** How a system call goes; a write moves at most this many bytes. */
  datatype Step = Does(count: nat) | Errors(effect: bool) | Stops(effect: bool)

  datatype Call = MakeRoot | OpenNew | Write | Look | WriteZeros | Copy | Unlink | RemoveRoot

  /** LocalLeft is the error of a removal that was not carried through. */
  datatype Failure = Refused | OsError | LocalLeft | Interrupted

  const CHUNK: nat := 4096

  /** A call that raises, or a write that writes nothing. */
  predicate Fails(call: Call, step: Step) {
    !step.Does? || ((call.Write? || call.WriteZeros?) && step.count == 0)
  }

  predicate Effect(step: Step) {
    step.Does? || step.effect
  }

  /** The error a failed call raises. */
  function ErrorOf(step: Step): Failure {
    if step.Stops? then Interrupted else OsError
  }

  /** The places, among the calls made, of those of _remove_local_secret that take something away; None for one that
      was not made. */
  datatype RemovalCalls = RemovalCalls(unlink: Option<nat>, rmdir: Option<nat>)

  const NO_REMOVAL := RemovalCalls(None, None)

  /** The places of the calls of an upload that make or take away: those of the writer, those of its own clean-up, and
      those of the last one. */
  datatype UploadCalls = UploadCalls(mkdir: Option<nat>, open: Option<nat>, first: RemovalCalls, last: RemovalCalls)

  const NO_UPLOAD := UploadCalls(None, None, NO_REMOVAL, NO_REMOVAL)

  function Zeros(n: nat): (z: seq<Byte>)
    ensures |z| == n && Zero(z)
  {
    seq(n, _ => 0)
  }

  function Min(a: nat, b: nat): nat {
    if a < b then a else b
  }

  /** The first k bytes of a file have been overwritten. */
  ghost predicate Overwritten(before: seq<Byte>, after: seq<Byte>, k: nat) {
    k <= |before| && after == Zeros(k) + before[k..]
  }

  lemma MoreOverwritten(before: seq<Byte>, file: seq<Byte>, k: nat, more: nat)
    requires Overwritten(before, file, k) && k + more <= |before|
    ensures Overwritten(before, Zeros(k + more) + file[k + more..], k + more)
  {
    assert file[k + more..] == before[k + more..];
  }

  class Workstation {
    const script: nat -> Step               // how the i-th call goes
    var made: seq<Call>                     // the calls made so far
    var root: bool                          // the private directory exists
    var payload: Option<seq<Byte>>          // the credential file in it
    ghost var unlinked: seq<seq<Byte>>      // what the file held whenever it was unlinked
    ghost var copied: seq<seq<Byte>>        // what the copy command found in it

    constructor (script: nat -> Step)
      ensures this.script == script && made == [] && !root && payload == None && unlinked == [] && copied == []
    {
      this.script, made, root, payload, unlinked, copied := script, [], false, None, [], [];
    }

    /** A workstation where the file is there already. */
    constructor Holding(script: nat -> Step, found: seq<Byte>)
      ensures this.script == script && made == [] && root && payload == Some(found) && unlinked == [] && copied == []
    {
      this.script, made, root, payload, unlinked, copied := script, [], true, Some(found), [], [];
    }

    method Next(call: Call) returns (step: Step)
      modifies this`made
      ensures step == script(old(|made|)) && made == old(made) + [call]
    {
      step, made := script(|made|), made + [call];
    }

    /** None of these calls failed. */
    ghost predicate Smooth(from: nat, to: nat)
      reads this`made
    {
      forall i :: from <= i < to <= |made| ==> !Fails(made[i], script(i))
    }

    /** The calls from this one on went well; or the last one failed, and its error is raised. */
    ghost predicate Ended(from: nat, raised: Option<Failure>)
      reads this`made
    {
      if raised.None? then from <= |made| && Smooth(from, |made|)
      else
        && from < |made| && Smooth(from, |made| - 1)
        && Fails(made[|made| - 1], script(|made| - 1))
        && raised == Some(if script(|made| - 1).Stops? then Interrupted else OsError)
    }

    /** The call at this place took effect, whatever its caller was told. */
    predicate Took(at: Option<nat>) {
      at.Some? && Effect(script(at.value))
    }

    /** This is the place of such a call, if there was one. */
    predicate At(at: Option<nat>, from: nat, call: Call)
      reads this`made
    {
      at.Some? ==> from <= at.value < |made| && made[at.value] == call
    }

    predicate Removing(calls: RemovalCalls, from: nat)
      reads this`made
    {
      At(calls.unlink, from, Unlink) && At(calls.rmdir, from, RemoveRoot)
    }

    /** A call that changes nothing here: access lists, synchronising, looking. */
    method Look() returns (raised: Option<Failure>)
      modifies this`made
      ensures made == old(made) + [Call.Look] && Ended(old(|made|), raised)
    {
      var step := Next(Call.Look);
      raised := if step.Does? then None else Some(ErrorOf(step));
    }

    /** Everything ever unlinked was zeros; what is left of a file is the old one, overwritten so far. */
    ghost predicate Erased()
      reads this`unlinked
    {
      forall i :: 0 <= i < |unlinked| ==> Zero(unlinked[i])
    }

    // ----- Writing the file -----

    /** Bytes go to the end of the file, possibly fewer than asked for; none at all is an error. */
    method Append(secret: seq<Byte>, offset: nat) returns (raised: Option<Failure>, written: nat)
      requires offset < |secret| && payload.Some?
      modifies this`made, this`payload
      ensures made == old(made) + [Write] && Ended(old(|made|), raised)
      ensures raised.None? ==> 1 <= written <= |secret| - offset
      ensures raised.None? ==> payload == Some(old(payload).value + secret[offset..offset + written])
      ensures payload.Some?
    {
      written := 0;
      var step := Next(Write);
      if step.Does? {
        written := Min(step.count, |secret| - offset);
        payload := Some(payload.value + secret[offset..offset + written]);
      } else if step.effect {
        payload := Some(payload.value + secret[offset..]);
      }
      raised := if Fails(Write, step) then Some(ErrorOf(step)) else None;
    }

    /** The body of _create_private_local_secret's try. */
    method Fill(secret: seq<Byte>)
      returns (raised: Option<Failure>, ghost mkdir: Option<nat>, ghost open: Option<nat>)
      requires !root && payload == None
      modifies this`made, this`root, this`payload
      ensures old(made) <= made && At(mkdir, old(|made|), MakeRoot) && At(open, old(|made|), OpenNew)
      ensures if raised == Some(Refused) then StartsWithMark(secret) else Ended(old(|made|), raised)
      ensures raised.None? ==> !StartsWithMark(secret)
      ensures raised.None? ==> root && payload == Some(secret)
      ensures root == Took(mkdir) && payload.Some? == Took(open)
    {
      mkdir, open := Some(|made|), None;
      var step := Next(MakeRoot);
      root := Effect(step);
      if !step.Does? {
        return Some(ErrorOf(step)), mkdir, open;
      }
      raised, open := OpenAndFill(secret);
    }

    /** The file in the new directory. */
    method OpenAndFill(secret: seq<Byte>) returns (raised: Option<Failure>, ghost open: Option<nat>)
      requires root && payload == None
      modifies this`made, this`payload
      ensures old(made) <= made && At(open, old(|made|), OpenNew) && payload.Some? == Took(open)
      ensures if raised == Some(Refused) then StartsWithMark(secret) else Ended(old(|made|), raised)
      ensures raised.None? ==> !StartsWithMark(secret)
      ensures raised.None? ==> payload == Some(secret)
    {
      open := None;
      raised := Look();             // the directory is plain and private
      if raised.Some? {
        return;
      }
      open := Some(|made|);
      var step := Next(OpenNew);
      payload := if Effect(step) then Some([]) else None;
      if !step.Does? {
        return Some(ErrorOf(step)), open;
      }
      raised := WriteAndCheck(secret);
    }

    /** The secret written in pieces, synchronised, and read back. */
    method WriteAndCheck(secret: seq<Byte>) returns (raised: Option<Failure>)
      requires root && payload == Some([])
      modifies this`made, this`payload
      ensures payload.Some? && old(made) <= made
      ensures if raised == Some(Refused) then StartsWithMark(secret) else Ended(old(|made|), raised)
      ensures raised.None? ==> !StartsWithMark(secret)
      ensures raised.None? ==> payload == Some(secret)
    {
      var offset := 0;
      while offset < |secret|
        invariant offset <= |secret| && root && payload == Some(secret[..offset])
        invariant old(made) <= made && Smooth(old(|made|), |made|)
      {
        var written;
        raised, written := Append(secret, offset);
        if raised.Some? {
          return;
        }
        assert secret[..offset] + secret[offset..offset + written] == secret[..offset + written];
        offset := offset + written;
      }
      assert secret[..offset] == secret;
      raised := Look();             // synchronise; the file is plain and private
      if raised.Some? {
        return;
      }
      raised := Look();             // read it back
      if raised.Some? {
        return;
      }
      if payload != Some(secret) || StartsWithMark(payload.value) {
        return Some(Refused);
      }
    }

    static predicate StartsWithMark(s: seq<Byte>) {
      |s| >= 3 && s[0] == 0xEF && s[1] == 0xBB && s[2] == 0xBF
    }

    /** _create_private_local_secret: the file holds exactly the secret, or the attempt is removed again;
        an error of that removal takes the place of the first. */
    method Create(secret: seq<Byte>) returns (raised: Option<Failure>, ghost calls: UploadCalls)
      requires Erased()
      modifies this`made, this`root, this`payload, this`unlinked
      ensures Erased() && calls.last == NO_REMOVAL && old(made) <= made && Placed(calls, old(|made|))
      ensures raised.None? ==> root && payload == Some(secret)
      ensures raised.None? ==> !old(root) && old(payload) == None && !StartsWithMark(secret)
      // Something that was there is refused, and left alone by this function.
      ensures old(root) || old(payload).Some? ==>
                raised == Some(Refused) && root == old(root) && payload == old(payload)
                  && calls == NO_UPLOAD && made == old(made)
      ensures !old(root) && old(payload).None? && raised.Some? ==>
                (!root && payload == None) || raised == Some(LocalLeft) || raised == Some(Interrupted)
      ensures !old(root) && old(payload).None? && !StartsWithMark(secret) ==>
                (raised.None? <==> Smooth(old(|made|), |made|))
      ensures root == ((old(root) || Took(calls.mkdir)) && !Took(calls.first.rmdir))
      ensures payload.Some? == ((old(payload).Some? || Took(calls.open)) && !Took(calls.first.unlink))
    {
      calls := NO_UPLOAD;
      if root || payload.Some? {
        return Some(Refused), calls;
      }
      ghost var mkdir, open, first;
      raised, mkdir, open := Fill(secret);
      calls := calls.(mkdir := mkdir, open := open);
      if raised.Some? {
        var removal;
        removal, first := Remove();
        calls := calls.(first := first);
        if removal.Some? {
          raised := removal;
        }
      }
    }

    /** These are the places of an upload's calls. */
    predicate Placed(calls: UploadCalls, from: nat)
      reads this`made
    {
      && At(calls.mkdir, from, MakeRoot) && At(calls.open, from, OpenNew)
      && Removing(calls.first, from) && Removing(calls.last, from)
    }

    // ----- Removing the file -----

    /** One write of zeros at this place of the file. */
    method ZeroSome(ghost before: seq<Byte>, at: nat, asked: nat) returns (raised: Option<Failure>, done: nat)
      requires payload.Some? && Overwritten(before, payload.value, at) && 0 < asked <= |before| - at
      modifies this`made, this`payload
      ensures made == old(made) + [WriteZeros] && Ended(old(|made|), raised)
      ensures payload.Some? && done <= asked && Overwritten(before, payload.value, at + done)
      ensures raised.None? ==> done > 0
    {
      var step := Next(WriteZeros);
      done := if step.Does? then Min(step.count, asked) else if step.effect then asked else 0;
      MoreOverwritten(before, payload.value, at, done);
      payload := Some(Zeros(at + done) + payload.value[at + done..]);
      raised := if Fails(WriteZeros, step) then Some(ErrorOf(step)) else None;
    }

    method Overwrite() returns (raised: Option<Failure>)
      requires payload.Some?
      modifies this`made, this`payload
      ensures old(made) <= made && Ended(old(|made|), raised)
      ensures payload.Some? && exists k :: Overwritten(old(payload).value, payload.value, k)
      ensures raised.None? ==> payload == Some(Zeros(|old(payload).value|))
    {
      ghost var before := payload.value;
      var size := |payload.value|;
      assert Overwritten(before, payload.value, 0);
      raised := Look();             // open
      if raised.Some? {
        return;
      }
      var remaining := size;
      while remaining > 0
        invariant remaining <= size && payload.Some? && Overwritten(before, payload.value, size - remaining)
        invariant old(made) <= made && Smooth(old(|made|), |made|)
      {
        var done;
        raised, done := ZeroSome(before, size - remaining, Min(CHUNK, remaining));
        if raised.Some? {
          return;
        }
        remaining := remaining - done;
      }
      assert payload.value == Zeros(size);
      raised := Look();             // synchronise
    }

    method UnlinkFile() returns (raised: Option<Failure>)
      requires payload.Some? && Zero(payload.value) && Erased()
      modifies this`made, this`payload, this`unlinked
      ensures Erased() && made == old(made) + [Unlink] && Ended(old(|made|), raised)
      ensures if Effect(script(old(|made|))) then payload == None && unlinked == old(unlinked) + [old(payload).value]
              else payload == old(payload) && unlinked == old(unlinked)
    {
      var step := Next(Unlink);
      if Effect(step) {
        unlinked, payload := unlinked + [payload.value], None;
      }
      raised := if step.Does? then None else Some(ErrorOf(step));
    }

    method DropRoot() returns (raised: Option<Failure>)
      requires root && payload == None
      modifies this`made, this`root
      ensures made == old(made) + [RemoveRoot] && Ended(old(|made|), raised)
      ensures root == !Effect(script(old(|made|)))
    {
      var step := Next(RemoveRoot);
      root := !Effect(step);
      raised := if step.Does? then None else Some(ErrorOf(step));
    }

    /** An OSError of the removal becomes its own error. */
    static function AsLocal(raised: Option<Failure>): Option<Failure> {
      if raised == Some(OsError) then Some(LocalLeft) else raised
    }

    /** _remove_local_secret: it returns exactly when its calls go well, and then nothing is left; on every exit the
        file is gone exactly when its unlink took effect, and the directory when its removal did; the file is unlinked
        only after every byte of it was overwritten; whatever is left of one is the old file, overwritten so far. */
    method Remove() returns (raised: Option<Failure>, ghost calls: RemovalCalls)
      requires Erased()
      modifies this`made, this`root, this`payload, this`unlinked
      ensures Erased() && old(made) <= made && Removing(calls, old(|made|))
      ensures raised.None? ==> !root && payload == None
      ensures RemovalEnded(old(|made|), raised)
      ensures payload.Some? == (old(payload).Some? && !Took(calls.unlink)) && root == (old(root) && !Took(calls.rmdir))
      ensures payload.Some? ==> raised.Some? && exists k :: Overwritten(old(payload).value, payload.value, k)
      ensures raised.None? && old(payload).Some? ==> unlinked == old(unlinked) + [Zeros(|old(payload).value|)]
    {
      calls := NO_REMOVAL;
      assert payload.Some? ==> Overwritten(payload.value, payload.value, 0);
      raised := Look();             // look at the file
      if raised.Some? {
        return AsLocal(raised), calls;
      }
      if payload.Some? {
        raised, calls := RemoveFile();
        if raised.Some? {
          return AsLocal(raised), calls;
        }
      }
      raised := Look();             // look at the directory
      if raised.Some? {
        return AsLocal(raised), calls;
      }
      if root {
        calls := calls.(rmdir := Some(|made|));
        raised := DropRoot();
        if raised.Some? {
          return AsLocal(raised), calls;
        }
      }
    }

    /** The calls of a removal, from this one on, went well; or the last one failed, and its error is raised as the
        removal's own. */
    ghost predicate RemovalEnded(from: nat, raised: Option<Failure>)
      reads this`made
    {
      raised != Some(OsError) && Ended(from, if raised == Some(LocalLeft) then Some(OsError) else raised)
    }

    /** The file overwritten, then unlinked. */
    method RemoveFile() returns (raised: Option<Failure>, ghost calls: RemovalCalls)
      requires Erased() && payload.Some?
      modifies this`made, this`payload, this`unlinked
      ensures Erased() && calls.rmdir.None? && payload.Some? == !Took(calls.unlink)
      ensures old(made) <= made && Ended(old(|made|), raised) && Removing(calls, old(|made|))
      ensures raised.None? ==> payload == None && unlinked == old(unlinked) + [Zeros(|old(payload).value|)]
      ensures payload.Some? ==> exists k :: Overwritten(old(payload).value, payload.value, k)
    {
      calls := NO_REMOVAL;
      raised := Overwrite();
      if raised.None? {
        calls := calls.(unlink := Some(|made|));
        raised := UnlinkFile();
      }
    }

    // ----- Uploading -----

    /** _run_secret_upload_bounded.  On every way out the buffer is wiped.  The copy command finds exactly
        the secret, or is not run.  It returns exactly when the secret is acceptable, nothing is in the way and all
        calls go well; a normal return leaves nothing; on every exit a file is left exactly when there was one, found
        or made, and neither removal's unlink took effect.  `last` is where the calls of the last removal begin. */
    method Upload(secret: array<Byte>) returns (raised: Option<Failure>, ghost calls: UploadCalls, ghost last: nat)
      requires Erased()
      modifies this, secret
      ensures Zero(secret[..]) && Erased()
      ensures copied == old(copied) || copied == old(copied) + [old(secret[..])]
      ensures raised.None? ==> copied == old(copied) + [old(secret[..])] && !root && payload == None
      ensures raised.None? <==> UploadAccepts(old(secret[..])) && !old(root) && old(payload).None?
                                && Smooth(old(|made|), |made|)
      // An unacceptable secret is refused before any call.
      ensures !UploadAccepts(old(secret[..])) ==>
                raised == Some(Refused) && made == old(made) && root == old(root) && payload == old(payload)
      // The last removal is made whatever happened before: its calls went well and nothing is left, or the last of
      // them failed and its error is the one that is raised.
      ensures UploadAccepts(old(secret[..])) ==>
                && old(|made|) <= last <= |made| && Removing(calls.last, last)
                && (Smooth(last, |made|) ==> !root && payload == None)
                && (!Smooth(last, |made|) ==> RemovalEnded(last, raised))
      ensures UploadAccepts(old(secret[..])) && payload.Some? ==>
                raised == Some(LocalLeft) || raised == Some(Interrupted)
      ensures old(made) <= made && Placed(calls, old(|made|))
      ensures root == ((old(root) || Took(calls.mkdir)) && !Took(calls.first.rmdir) && !Took(calls.last.rmdir))
      ensures payload.Some? ==
                ((old(payload).Some? || Took(calls.open)) && !Took(calls.first.unlink) && !Took(calls.last.unlink))
      // Something that was there before is refused by the writer, and then removed like a file of its own.
      ensures UploadAccepts(old(secret[..])) && (old(root) || old(payload).Some?) ==>
                && copied == old(copied) && calls == NO_UPLOAD.(last := calls.last) && last == old(|made|)
                && (Smooth(last, |made|) ==> raised == Some(Refused))
    {
      calls, last := NO_UPLOAD, 0;
      var ok := Acceptable(secret);
      if !ok {
        Wipe(secret);
        return Some(Refused), calls, last;
      }
      raised, calls := CreateAndCopy(secret[..]);
      Wipe(secret);
      last := |made|;
      var removal;
      ghost var places;
      removal, places := Remove();
      calls := calls.(last := places);
      if removal.Some? {
        raised := removal;
      }
    }

    /** The file, and the copy command, which finds the secret in it. */
    method CreateAndCopy(secret: seq<Byte>) returns (raised: Option<Failure>, ghost calls: UploadCalls)
      requires Erased() && UploadAccepts(secret)
      modifies this`made, this`root, this`payload, this`unlinked, this`copied
      ensures Erased() && calls.last == NO_REMOVAL && old(made) <= made && Placed(calls, old(|made|))
      ensures copied == old(copied) || copied == old(copied) + [secret]
      ensures raised.None? ==> copied == old(copied) + [secret]
      ensures raised.None? <==> !old(root) && old(payload).None? && Smooth(old(|made|), |made|)
      ensures old(root) || old(payload).Some? ==>
                raised == Some(Refused) && root == old(root) && payload == old(payload)
                  && calls == NO_UPLOAD && made == old(made) && copied == old(copied)
      ensures root == ((old(root) || Took(calls.mkdir)) && !Took(calls.first.rmdir))
      ensures payload.Some? == ((old(payload).Some? || Took(calls.open)) && !Took(calls.first.unlink))
    {
      assert Visible(secret[0]);
      raised, calls := Create(secret);
      if raised.None? {
        copied := copied + [payload.value];
        var step := Next(Copy);
        raised := if step.Does? then None else Some(ErrorOf(step));
      }
    }
  }

  /** A file found in the way does not survive a clean-up that works: whatever it held, the upload is refused, the
      copy is not made, and the file is overwritten and gone. */
  method FoundFileIsRemoved(found: seq<Byte>, token: seq<Byte>)
    returns (station: Workstation, raised: Option<Failure>)
    requires 0 < |token| <= MAX_UPLOADABLE
    ensures raised == Some(Refused) && station.copied == [] && !station.root && station.payload == None
  {
    var secret := NewSecret(token);
    station := new Workstation.Holding(_ => Does(CHUNK), found);
    ghost var calls, last;
    raised, calls, last := station.Upload(secret);
  }
}

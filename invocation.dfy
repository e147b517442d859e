/** `run_command`: hand the payload to the automation engine and fold its
    outcome into one result string. The engine itself (the `shortcuts run
    switch` process) is a parameter: a function from the payload it reads on
    standard input to the outcome it produces. */
module Invocation {
  import opened Text
  import opened Commands

  /** What the engine's process leaves behind: its exit status and the
      complete text of its two output streams. */
  datatype Outcome = Outcome(exitStatus: int, stdout: string, stderr: string)

  /** The marker that starts every failure result. */
  const ErrorMarker: string := "Error: "

  /** The result of a success that printed nothing. */
  const EmptySuccess: string := "OK"

  predicate StartsWith(s: string, prefix: string) {
    |prefix| <= |s| && s[..|prefix|] == prefix
  }

  /** The outcome-to-string mapping of `run_command`: on exit status 0 the
      stripped standard output, or "OK" when that is empty; on any other
      status (where `check=True` raises `CalledProcessError`) the error
      marker followed by the stripped standard error. */
  function Normalize(o: Outcome): (r: string)
    ensures r != ""
    ensures o.exitStatus != 0 ==> StartsWith(r, ErrorMarker) && r[|ErrorMarker|..] == Strip(o.stderr)
    ensures o.exitStatus == 0 ==> Trimmed(r)
  {
    if o.exitStatus == 0 then
      var out := Strip(o.stdout);
      if out == "" then EmptySuccess else out
    else
      ErrorMarker + Strip(o.stderr)
  }

  /** A success result: "OK" when standard output is only whitespace,
      otherwise exactly the stripped output, which is non-empty and is what
      remains once surrounding whitespace is removed. */
  lemma SuccessResult(o: Outcome)
    requires o.exitStatus == 0
    ensures AllWhitespace(o.stdout) ==> Normalize(o) == EmptySuccess
    ensures !AllWhitespace(o.stdout) ==> Normalize(o) == Strip(o.stdout) && Normalize(o) != ""
    ensures !AllWhitespace(o.stdout) ==>
      exists p, q :: AllWhitespace(p) && AllWhitespace(q) && o.stdout == p + Normalize(o) + q
  {
    StripEmptyIff(o.stdout);
    var p, q := StripSplits(o.stdout);
  }

  /** A success result reads "OK" exactly when the stripped output is empty
      or is itself "OK": the two cannot be told apart. */
  lemma SuccessIsOkIff(o: Outcome)
    requires o.exitStatus == 0
    ensures Normalize(o) == EmptySuccess <==> AllWhitespace(o.stdout) || Strip(o.stdout) == EmptySuccess
  {
    StripEmptyIff(o.stdout);
  }

  /** A failure result: whitespace-only standard error yields the bare
      marker "Error: ". */
  lemma FailureResult(o: Outcome)
    requires o.exitStatus != 0
    ensures AllWhitespace(o.stderr) <==> Normalize(o) == ErrorMarker
  {
    StripEmptyIff(o.stderr);
    var r := Normalize(o);
    assert r == ErrorMarker + Strip(o.stderr);
    if r == ErrorMarker {
      assert |Strip(o.stderr)| == 0;
    }
  }

  /** A failure ignores standard output and a success ignores standard
      error, and any nonzero status is treated alike. */
  lemma NormalizeReadsOnlyTheRelevantStream(o: Outcome, o': Outcome)
    requires (o.exitStatus == 0) == (o'.exitStatus == 0)
    requires o.exitStatus == 0 ==> o.stdout == o'.stdout
    requires o.exitStatus != 0 ==> o.stderr == o'.stderr
    ensures Normalize(o) == Normalize(o')
  {
  }

  /** Normalising is stable: stripping an already stripped stream changes
      nothing, so the engine padding its output with whitespace does not
      change the result. */
  lemma NormalizeIgnoresPadding(o: Outcome, p: string, q: string)
    requires AllWhitespace(p) && AllWhitespace(q)
    ensures Normalize(Outcome(o.exitStatus, p + o.stdout + q, p + o.stderr + q)) == Normalize(o)
  {
    PaddedStrip(p, o.stdout, q);
    PaddedStrip(p, o.stderr, q);
  }

  lemma PaddedStrip(p: string, s: string, q: string)
    requires AllWhitespace(p) && AllWhitespace(q)
    ensures Strip(p + s + q) == Strip(s)
  {
    var p', q' := StripSplits(s);
    StripUniquePadded(p, p', Strip(s), q', q);
  }

  /** A success and a failure can produce the same string: an engine that
      exits 0 printing "Error: e" is reported exactly like one that exits
      nonzero with "e" on standard error. */
  lemma SuccessCanMimicFailure(e: string, status: int)
    requires e != "" && Trimmed(e) && status != 0
    ensures Normalize(Outcome(0, ErrorMarker + e, "")) == Normalize(Outcome(status, "", e))
  {
    var m := ErrorMarker + e;
    assert m[0] == 'E' && m[|m| - 1] == e[|e| - 1];
    assert [] + m + [] == m && [] + e + [] == e;
    StripUnique([], m, []);
    StripUnique([], e, []);
  }

  /** `run_command(cmd)`: the engine reads exactly the command's payload and
      its outcome is normalised. */
  function RunCommand(cmd: Command, engine: string -> Outcome): (r: string)
    ensures r != ""
    ensures engine(Payload(cmd)).exitStatus != 0 ==> StartsWith(r, ErrorMarker)
    ensures engine(Payload(cmd)).exitStatus == 0 ==> r == EmptySuccess || r == Strip(engine(Payload(cmd)).stdout)
  {
    Normalize(engine(Payload(cmd)))
  }

  /** Examples of the protocol: a success that prints a line, one that
      prints nothing, and a failure that reports on standard error. */
  lemma ExampleCallPlaced()
    ensures Normalize(Outcome(0, "Call placed", "")) == "Call placed"
  {
    var out := "Call placed";
    assert out == [] + out + [];
    StripUnique([], out, []);
  }

  lemma ExampleEmptySuccess()
    ensures Normalize(Outcome(0, "", "")) == "OK"
    ensures Normalize(Outcome(0, " \n\t", "")) == "OK"
  {
    StripEmptyIff(" \n\t");
  }

  lemma ExampleContactNotFound()
    ensures Normalize(Outcome(1, "", "Contact not found")) == ErrorMarker + "Contact not found"
  {
    var err := "Contact not found";
    assert Trimmed(err);
    assert err == [] + err + [];
    StripUnique([], err, []);
  }

  lemma ExampleTrailingNewline()
    ensures Normalize(Outcome(1, "", "Contact not found\n")) == ErrorMarker + "Contact not found"
  {
    var err := "Contact not found";
    assert Trimmed(err);
    assert "Contact not found\n" == [] + err + "\n";
    StripUnique([], err, "\n");
  }

  /** A failure with nothing but whitespace on standard error. */
  lemma ExampleBlankFailure(out: string, err: string)
    requires AllWhitespace(err)
    ensures Normalize(Outcome(1, out, err)) == "Error: "
  {
    StripEmptyIff(err);
  }
}

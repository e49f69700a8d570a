/** The termination-keyword test of listen_print_loop (audio_stream_to_asr.py:181):
    re.search(r'\b(exit|quit)\b', transcript, re.I), over ASCII text. */
module Keywords {

  /** A regex word character (\w) in the ASCII range. */
  predicate IsWordChar(c: char)
  {
    'a' <= c <= 'z' || 'A' <= c <= 'Z' || '0' <= c <= '9' || c == '_'
  }

  /** ASCII lower-casing, which is what re.I does to the letters of "exit" and "quit". */
  function Lower(c: char): char
  {
    if 'A' <= c <= 'Z' then (c as int + 32) as char else c
  }

  /** The lower-case word w occurs in t at position i, ignoring case, with a word
      boundary (\b) on both sides: no word character just before or just after it. */
  predicate WordAt(t: string, i: int, w: string)
  {
    && 0 <= i && i + |w| <= |t|
    && (forall j :: 0 <= j < |w| ==> Lower(t[i + j]) == w[j])
    && (i == 0 || !IsWordChar(t[i - 1]))
    && (i + |w| == |t| || !IsWordChar(t[i + |w|]))
  }

  /** The leftmost-first scan re.search performs, from position `from` on. */
  function SearchFrom(t: string, from: nat): (found: bool)
    requires from <= |t|
    ensures found <==> exists i :: from <= i && (WordAt(t, i, "exit") || WordAt(t, i, "quit"))
    decreases |t| - from
  {
    if from == |t| then false
    else WordAt(t, from, "exit") || WordAt(t, from, "quit") || SearchFrom(t, from + 1)
  }

  /** The transcript contains "exit" or "quit" as a whole word, in any letter case. */
  function IsExitCommand(transcript: string): (found: bool)
    ensures found <==> exists i :: WordAt(transcript, i, "exit") || WordAt(transcript, i, "quit")
  {
    SearchFrom(transcript, 0)
  }

  /** The keyword is found in any case and next to punctuation. */
  lemma ExitCommandFound()
    ensures IsExitCommand("Please EXIT now")
    ensures IsExitCommand("quit.")
  {
    assert WordAt("Please EXIT now", 7, "exit");
    assert WordAt("quit.", 0, "quit");
  }

  /** The keyword is not found inside a longer word. */
  lemma ExitCommandNotFound()
    ensures !IsExitCommand("exiting")
    ensures !IsExitCommand("quite")
  {
    assert !WordAt("exiting", 0, "exit") by { assert IsWordChar("exiting"[4]); }
    assert !WordAt("quite", 0, "quit") by { assert IsWordChar("quite"[4]); }
    assert !SearchFrom("exiting", 1);
    assert !SearchFrom("quite", 1);
  }
}

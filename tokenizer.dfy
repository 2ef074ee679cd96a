/** `TokenizerUtils`: the Whisper BPE and NLLB SentencePiece tokenizers are
    native libraries; when they are missing (or a native call fails to
    link) each of the four entry points falls back to a word-hash encoder or
    a fixed-prefix decoder.

    The native results and the outcome of loading the libraries are inputs.
    Strings are sequences of Unicode scalar values; `String.hashCode` is
    computed over their UTF-16 code units, as the JVM does. */
module TokenizerUtils {
  import opened Text

  // ---------------------------------------------------------------------------
  // Java's String.hashCode

  /** The UTF-16 code units of a string: one unit below 0x10000, a
      surrogate pair otherwise. */
  function Utf16(s: string): (units: seq<int>)
    ensures |units| >= |s|
    ensures forall i :: 0 <= i < |units| ==> 0 <= units[i] < 0x1_0000
  {
    if s == [] then []
    else
      var c := s[|s| - 1] as int;
      Utf16(s[..|s| - 1]) +
      if c < 0x1_0000 then [c]
      else [0xD800 + (c - 0x1_0000) / 0x400, 0xDC00 + (c - 0x1_0000) % 0x400]
  }

  /** Two's-complement wrap-around of a value to 32 bits. */
  function Wrap32(x: int): (r: int)
    ensures -0x8000_0000 <= r < 0x8000_0000
    ensures (x - r) % 0x1_0000_0000 == 0
  {
    var u := x % 0x1_0000_0000;
    if u >= 0x8000_0000 then u - 0x1_0000_0000 else u
  }

  /** `h = 31 * h + unit` over the code units, in 32-bit `Int` arithmetic. */
  function HashUnits(units: seq<int>): (h: int)
    ensures -0x8000_0000 <= h < 0x8000_0000
  {
    if units == [] then 0
    else Wrap32(31 * HashUnits(units[..|units| - 1]) + units[|units| - 1])
  }

  function HashCode(s: string): int
  {
    HashUnits(Utf16(s))
  }

  /** `hashCode().toLong() and 0xFFFF`: the low 16 bits of the two's-complement
      value, which for either sign is its remainder modulo 65536. */
  function Low16(h: int): (r: nat)
    ensures r < 0x1_0000
    ensures (h - r) % 0x1_0000 == 0
  {
    h % 0x1_0000
  }

  // ---------------------------------------------------------------------------
  // Fallback encoders

  /** The pieces of `text.split(" ")`, empty pieces included. */
  function Words(text: string): (ws: seq<string>)
    ensures |ws| == Count(text, ' ') + 1
  {
    Split(text, ' ')
  }

  /** The Whisper fallback token of word `w` at position `i`. */
  function WhisperToken(w: string, i: nat): int
  {
    Low16(HashCode(w)) + i
  }

  /** `whisperEncodeFallback`: one token per space-separated piece, the
      piece's 16-bit hash plus its position. */
  function WhisperEncodeFallback(text: string): (tokens: seq<int>)
    ensures |tokens| == Count(text, ' ') + 1
    ensures forall i :: 0 <= i < |tokens| ==> i <= tokens[i] <= i + 0xFFFF
    ensures forall i :: 0 <= i < |tokens| ==> tokens[i] == WhisperToken(Words(text)[i], i)
  {
    var ws := Words(text);
    seq(|ws|, i requires 0 <= i < |ws| => WhisperToken(ws[i], i))
  }

  /** The SentencePiece fallback token of word `w`. */
  function SpToken(w: string): int
  {
    Low16(HashCode(w)) + 1000
  }

  /** `spEncodeFallback`: one token per space-separated piece, the piece's
      16-bit hash plus 1000. */
  function SpEncodeFallback(text: string): (tokens: seq<int>)
    ensures |tokens| == Count(text, ' ') + 1
    ensures forall i :: 0 <= i < |tokens| ==> 1000 <= tokens[i] <= 66535
    ensures forall i :: 0 <= i < |tokens| ==> tokens[i] == SpToken(Words(text)[i])
  {
    var ws := Words(text);
    seq(|ws|, i requires 0 <= i < |ws| => SpToken(ws[i]))
  }

  /** The SentencePiece fallback ignores position: equal pieces get equal
      tokens wherever they stand. The Whisper fallback gives equal pieces
      tokens that differ by exactly their distance. */
  lemma EqualWordsTokens(text: string, i: nat, j: nat)
    requires i < j <= Count(text, ' ')
    requires Words(text)[i] == Words(text)[j]
    ensures SpEncodeFallback(text)[i] == SpEncodeFallback(text)[j]
    ensures WhisperEncodeFallback(text)[j] - WhisperEncodeFallback(text)[i] == j - i
  {
  }

  /** Encoding text made by joining space-free words with single spaces
      gives one token per word, in order. */
  lemma EncodeJoinedWords(ws: seq<string>)
    requires |ws| > 0 && forall i :: 0 <= i < |ws| ==> ' ' !in ws[i]
    ensures var text := Join(" ", ws);
            |SpEncodeFallback(text)| == |ws| && |WhisperEncodeFallback(text)| == |ws| &&
            forall i :: 0 <= i < |ws| ==>
              SpEncodeFallback(text)[i] == SpToken(ws[i]) &&
              WhisperEncodeFallback(text)[i] == WhisperToken(ws[i], i)
  {
    SplitJoin(ws, ' ');
  }

  lemma HashOfUnit(u: int)
    requires 0 <= u < 0x1_0000
    ensures HashUnits([u]) == u
  {
    assert [u][..0] == [];
    assert HashUnits([u]) == Wrap32(31 * HashUnits([]) + u);
  }

  /** A one-character word below U+10000 hashes to its code point. */
  lemma HashOfChar(c: char)
    requires (c as int) < 0x1_0000
    ensures HashCode([c]) == c as int
  {
    assert [c][..0] == "";
    assert Utf16([c]) == [c as int];
    HashOfUnit(c as int);
  }

  lemma SplitExample()
    ensures Words("a b") == ["a", "b"]
  {
    assert Split("b", ' ') == ["b"] by {
      assert "b"[1..] == "";
      assert Split("", ' ') == [""];
      assert [""][1..] == [];
      assert ['b'] + "" == "b";
    }
    assert " b"[1..] == "b";
    assert Split(" b", ' ') == ["", "b"];
    assert "a b"[1..] == " b";
    assert ["", "b"][1..] == ["b"];
    assert ['a'] + "" == "a";
  }

  /** The empty text is one empty piece, whose hash is 0. */
  lemma SpEncodeEmpty()
    ensures SpEncodeFallback("") == [1000]
  {
    assert Split("", ' ') == [""];
    assert HashCode("") == 0;
  }

  /** "a b" is the pieces "a" and "b", hashing to 97 and 98; the second
      is shifted by its position. */
  lemma WhisperEncodeExample()
    ensures WhisperEncodeFallback("a b") == [97, 99]
  {
    SplitExample();
    HashOfChar('a');
    HashOfChar('b');
    var t := WhisperEncodeFallback("a b");
    assert t[0] == WhisperToken("a", 0) == 97;
    assert t[1] == WhisperToken("b", 1) == 99;
  }

  // ---------------------------------------------------------------------------
  // Fallback decoders

  const WhisperPrefix: string := "🎤 음성 인식 결과 (Fallback): "
  const WhisperWord: string := "토큰"
  const SpPrefix: string := "🈲 번역 결과 (Fallback): "
  const SpWord: string := "번역"

  /** Each token printed after a fixed word, the pieces joined by spaces. */
  function Labelled(word: string, tokens: seq<int>): (pieces: seq<string>)
    ensures |pieces| == |tokens|
  {
    seq(|tokens|, i requires 0 <= i < |tokens| => word + IntString(tokens[i]))
  }

  /** `whisperDecodeFallback`. */
  function WhisperDecodeFallback(tokens: seq<int>): (s: string)
    ensures WhisperPrefix <= s
  {
    WhisperPrefix + Join(" ", Labelled(WhisperWord, tokens))
  }

  /** `spDecodeFallback`. */
  function SpDecodeFallback(tokens: seq<int>): (s: string)
    ensures SpPrefix <= s
  {
    SpPrefix + Join(" ", Labelled(SpWord, tokens))
  }

  /** After the prefix, the space-separated pieces of a fallback decoding
      are the labelled tokens, in order. */
  lemma {:induction false} LabelledPieces(word: string, tokens: seq<int>)
    requires |word| > 0 && ' ' !in word && tokens != []
    ensures Split(Join(" ", Labelled(word, tokens)), ' ') == Labelled(word, tokens)
  {
    var pieces := Labelled(word, tokens);
    forall i | 0 <= i < |pieces|
      ensures ' ' !in pieces[i]
    {
      assert pieces[i] == word + IntString(tokens[i]);
    }
    SplitJoin(pieces, ' ');
  }

  /** The label printed for different tokens differs. */
  lemma LabelInjective(word: string, a: int, b: int)
    requires word + IntString(a) == word + IntString(b)
    ensures a == b
  {
    assert IntString(a) == (word + IntString(a))[|word|..];
    assert IntString(b) == (word + IntString(b))[|word|..];
    IntStringInjective(a, b);
  }

  /** The text after the prefix determines the tokens. */
  lemma {:induction false} LabelledJoinInjective(word: string, a: seq<int>, b: seq<int>)
    requires |word| > 0 && ' ' !in word
    requires Join(" ", Labelled(word, a)) == Join(" ", Labelled(word, b))
    ensures a == b
  {
    if a == [] || b == [] {
      if a != [] {
        assert Labelled(word, a)[0] == word + IntString(a[0]);
        JoinNonEmpty(Labelled(word, a));
      } else if b != [] {
        assert Labelled(word, b)[0] == word + IntString(b[0]);
        JoinNonEmpty(Labelled(word, b));
      }
    } else {
      LabelledPieces(word, a);
      LabelledPieces(word, b);
      var pa := Labelled(word, a);
      var pb := Labelled(word, b);
      assert pa == pb;
      forall i | 0 <= i < |a|
        ensures a[i] == b[i]
      {
        assert pa[i] == word + IntString(a[i]);
        assert pb[i] == word + IntString(b[i]);
        LabelInjective(word, a[i], b[i]);
      }
    }
  }

  /** A join whose first piece is non-empty is non-empty. */
  lemma JoinNonEmpty(parts: seq<string>)
    requires |parts| > 0 && |parts[0]| > 0
    ensures |Join(" ", parts)| > 0
  {
  }

  /** Distinct token sequences decode to distinct fallback texts, so the
      decoding loses nothing. */
  lemma DecodeFallbackInjective(a: seq<int>, b: seq<int>)
    ensures WhisperDecodeFallback(a) == WhisperDecodeFallback(b) ==> a == b
    ensures SpDecodeFallback(a) == SpDecodeFallback(b) ==> a == b
  {
    if WhisperDecodeFallback(a) == WhisperDecodeFallback(b) {
      var n := |WhisperPrefix|;
      assert WhisperDecodeFallback(a)[n..] == Join(" ", Labelled(WhisperWord, a));
      assert WhisperDecodeFallback(b)[n..] == Join(" ", Labelled(WhisperWord, b));
      LabelledJoinInjective(WhisperWord, a, b);
    }
    if SpDecodeFallback(a) == SpDecodeFallback(b) {
      var n := |SpPrefix|;
      assert SpDecodeFallback(a)[n..] == Join(" ", Labelled(SpWord, a));
      assert SpDecodeFallback(b)[n..] == Join(" ", Labelled(SpWord, b));
      LabelledJoinInjective(SpWord, a, b);
    }
  }

  lemma DecodeExamples()
    ensures WhisperDecodeFallback([]) == WhisperPrefix
    ensures SpDecodeFallback([7]) == SpPrefix + "번역7"
  {
    assert Labelled(SpWord, [7]) == ["번역" + "7"];
  }

  // ---------------------------------------------------------------------------
  // Dispatch between native code and the fallbacks

  /** What a native call does: return a value, or throw
      `UnsatisfiedLinkError`. */
  datatype Native<T> = Returned(value: T) | LinkError

  /** The `init` block: the flag is set only when both libraries load (the
      second is not tried once the first fails). */
  function LibrariesLoaded(sentencepieceLoads: bool, whisperLoads: bool): (loaded: bool)
    ensures loaded ==> sentencepieceLoads && whisperLoads
    ensures !sentencepieceLoads || !whisperLoads ==> !loaded
  {
    sentencepieceLoads && whisperLoads
  }

  /** The shape of all four public functions: the native result when the
      libraries are loaded and the call links, the fallback otherwise. */
  function WithFallback<T>(jniLoaded: bool, native: Native<T>, fallback: T): (r: T)
    ensures jniLoaded && native.Returned? ==> r == native.value
    ensures !jniLoaded || native.LinkError? ==> r == fallback
  {
    if jniLoaded then
      match native
      case Returned(v) => v
      case LinkError => fallback
    else fallback
  }

  function WhisperEncode(jniLoaded: bool, native: Native<seq<int>>, text: string): seq<int>
  {
    WithFallback(jniLoaded, native, WhisperEncodeFallback(text))
  }

  function WhisperDecode(jniLoaded: bool, native: Native<string>, tokens: seq<int>): string
  {
    WithFallback(jniLoaded, native, WhisperDecodeFallback(tokens))
  }

  function SpEncode(jniLoaded: bool, native: Native<seq<int>>, text: string): seq<int>
  {
    WithFallback(jniLoaded, native, SpEncodeFallback(text))
  }

  function SpDecode(jniLoaded: bool, native: Native<string>, tokens: seq<int>): string
  {
    WithFallback(jniLoaded, native, SpDecodeFallback(tokens))
  }

  /** Without the native libraries, every entry point gives its fallback
      result whatever the native code would have done. */
  lemma UnloadedUsesFallback(native: Native<seq<int>>, nativeText: Native<string>,
                             text: string, tokens: seq<int>)
    ensures WhisperEncode(false, native, text) == WhisperEncodeFallback(text)
    ensures WhisperDecode(false, nativeText, tokens) == WhisperDecodeFallback(tokens)
    ensures SpEncode(false, native, text) == SpEncodeFallback(text)
    ensures SpDecode(false, nativeText, tokens) == SpDecodeFallback(tokens)
  {
  }

  /** A link error in a loaded library also falls back. */
  lemma LinkErrorUsesFallback(text: string, tokens: seq<int>)
    ensures WhisperEncode(true, LinkError, text) == WhisperEncodeFallback(text)
    ensures WhisperDecode(true, LinkError, tokens) == WhisperDecodeFallback(tokens)
    ensures SpEncode(true, LinkError, text) == SpEncodeFallback(text)
    ensures SpDecode(true, LinkError, tokens) == SpDecodeFallback(tokens)
  {
  }
}

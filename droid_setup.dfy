/** The config patch `FactoryDroidAgent.setup` applies to `config.json`
    before uploading it (custom_agents/factory_droid.py): the placeholders for
    the OpenAI and Ollama keys are replaced by the keys from the environment,
    each only when that key is set to a non-empty value. */
module DroidSetup {
  import opened Wrappers
  import opened Text
  import opened Harbor

  const OpenAiPlaceholder := "${OPENAI_API_KEY}"
  const OllamaPlaceholder := "${OLLAMA_API_KEY}"

  /** Replace `placeholder` by the value of `key` when that is set. */
  function Substitute(config: string, environ: Env, key: string, placeholder: string): string
    requires placeholder != ""
  {
    var value := Get(environ, key);
    if Truthy(value) then Replace(config, placeholder, value.value) else config
  }

  /** The patched config text: the OpenAI placeholder first, then the Ollama
      one. With neither key set, or with neither placeholder present, the
      config is uploaded as it was read. */
  function PatchConfig(config: string, environ: Env): (r: string)
    ensures !IsSet(environ, "OPENAI_API_KEY") && !IsSet(environ, "OLLAMA_API_KEY") ==> r == config
    ensures !Contains(config, OpenAiPlaceholder) && !Contains(config, OllamaPlaceholder) ==> r == config
  {
    var withOpenAi := Substitute(config, environ, "OPENAI_API_KEY", OpenAiPlaceholder);
    Substitute(withOpenAi, environ, "OLLAMA_API_KEY", OllamaPlaceholder)
  }

  /** Text in which every `$` is followed by a character other than `{`: no
      placeholder can start in it, nor at its last character. */
  predicate NoOpen(a: string)
  {
    forall j :: 0 <= j < |a| && a[j] == '$' ==> j + 1 < |a| && a[j + 1] != '{'
  }

  /** Text without an opening `${` is copied through by a replacement of a
      `${...}` pattern. */
  lemma {:induction false} ReplaceKeepsUnopened(a: string, s: string, pat: string, rep: string)
    requires |pat| >= 2 && pat[0] == '$' && pat[1] == '{' && NoOpen(a)
    ensures Replace(a + s, pat, rep) == a + Replace(s, pat, rep)
    decreases |a|
  {
    if a != [] {
      var t := a + s;
      assert t[0] == a[0] && t[1..] == a[1..] + s;
      if a[0] == '$' {
        assert t[1] == a[1] != pat[1];
      }
      assert !IsPrefix(pat, t);
      assert Replace(t, pat, rep) == [a[0]] + Replace(a[1..] + s, pat, rep);
      assert NoOpen(a[1..]) by {
        forall j | 0 <= j < |a[1..]| && a[1..][j] == '$'
          ensures j + 1 < |a[1..]| && a[1..][j + 1] != '{'
        {
          assert a[j + 1] == '$';
        }
      }
      ReplaceKeepsUnopened(a[1..], s, pat, rep);
      assert [a[0]] + (a[1..] + Replace(s, pat, rep)) == a + Replace(s, pat, rep);
    } else {
      assert a + s == s;
    }
  }

  /** The text in front of the first `${` is kept, and the OpenAI placeholder
      that follows it becomes the key while an unset key leaves it in place. */
  lemma PatchFirstOpenAiPlaceholder(before: string, after: string, environ: Env)
    requires NoOpen(before)
    ensures var w := Substitute(before + OpenAiPlaceholder + after, environ, "OPENAI_API_KEY", OpenAiPlaceholder);
            && (IsSet(environ, "OPENAI_API_KEY") ==>
                  w == before + environ["OPENAI_API_KEY"] + Replace(after, OpenAiPlaceholder, environ["OPENAI_API_KEY"]))
            && (!IsSet(environ, "OPENAI_API_KEY") ==> w == before + OpenAiPlaceholder + after)
  {
    if IsSet(environ, "OPENAI_API_KEY") {
      var v := environ["OPENAI_API_KEY"];
      assert before + OpenAiPlaceholder + after == before + (OpenAiPlaceholder + after);
      ReplaceKeepsUnopened(before, OpenAiPlaceholder + after, OpenAiPlaceholder, v);
      ReplaceAtStart(OpenAiPlaceholder, after, v);
    }
  }

  /** A config text cut at its placeholders: plain text in which no `${`
      opens (a `$` elsewhere, as in `"$schema"`, is allowed), and the two
      placeholders. */
  datatype Piece = Plain(text: string) | OpenAiSlot | OllamaSlot

  predicate Unmarked(pieces: seq<Piece>)
  {
    forall i :: 0 <= i < |pieces| && pieces[i].Plain? ==> NoOpen(pieces[i].text)
  }

  /** The text of `pieces` with `openAi` and `ollama` in the two kinds of slot. */
  function Render(pieces: seq<Piece>, openAi: string, ollama: string): string
    decreases |pieces|
  {
    if pieces == [] then ""
    else
      (match pieces[0]
       case Plain(t) => t
       case OpenAiSlot => openAi
       case OllamaSlot => ollama)
      + Render(pieces[1..], openAi, ollama)
  }

  /** Substituting the OpenAI placeholder fills every OpenAI slot and leaves
      the rest of the text, Ollama placeholders included, as it was. */
  lemma {:induction false} RenderReplaceOpenAi(pieces: seq<Piece>, ollama: string, rep: string)
    requires Unmarked(pieces) && (ollama == OllamaPlaceholder || NoOpen(ollama))
    ensures Replace(Render(pieces, OpenAiPlaceholder, ollama), OpenAiPlaceholder, rep) == Render(pieces, rep, ollama)
    decreases |pieces|
  {
    if pieces != [] {
      var tail := pieces[1..];
      assert forall i :: 0 <= i < |tail| ==> tail[i] == pieces[i + 1];
      RenderReplaceOpenAi(tail, ollama, rep);
      var rest := Render(tail, OpenAiPlaceholder, ollama);
      match pieces[0]
      case Plain(t) =>
        ReplaceKeepsUnopened(t, rest, OpenAiPlaceholder, rep);
      case OpenAiSlot =>
        ReplaceAtStart(OpenAiPlaceholder, rest, rep);
      case OllamaSlot =>
        if ollama == OllamaPlaceholder {
          assert (ollama + rest)[3] != OpenAiPlaceholder[3];
          ReplaceSkipsPrefix(ollama, rest, OpenAiPlaceholder, rep);
        } else {
          ReplaceKeepsUnopened(ollama, rest, OpenAiPlaceholder, rep);
        }
    }
  }

  /** Substituting the Ollama placeholder fills every Ollama slot and leaves
      the rest of the text, OpenAI placeholders included, as it was. */
  lemma {:induction false} RenderReplaceOllama(pieces: seq<Piece>, openAi: string, rep: string)
    requires Unmarked(pieces) && (openAi == OpenAiPlaceholder || NoOpen(openAi))
    ensures Replace(Render(pieces, openAi, OllamaPlaceholder), OllamaPlaceholder, rep) == Render(pieces, openAi, rep)
    decreases |pieces|
  {
    if pieces != [] {
      var tail := pieces[1..];
      assert forall i :: 0 <= i < |tail| ==> tail[i] == pieces[i + 1];
      RenderReplaceOllama(tail, openAi, rep);
      var rest := Render(tail, openAi, OllamaPlaceholder);
      match pieces[0]
      case Plain(t) =>
        ReplaceKeepsUnopened(t, rest, OllamaPlaceholder, rep);
      case OllamaSlot =>
        ReplaceAtStart(OllamaPlaceholder, rest, rep);
      case OpenAiSlot =>
        if openAi == OpenAiPlaceholder {
          assert (openAi + rest)[3] != OllamaPlaceholder[3];
          ReplaceSkipsPrefix(openAi, rest, OllamaPlaceholder, rep);
        } else {
          ReplaceKeepsUnopened(openAi, rest, OllamaPlaceholder, rep);
        }
    }
  }

  /** The patch on a config of any number of placeholders of both kinds:
      every placeholder whose key is set becomes that key, every other one
      stays, and all other text is unchanged. The OpenAI key must open no
      `${`, since the Ollama substitution scans it again (see `PatchOrder`). */
  lemma PatchFillsSlots(pieces: seq<Piece>, environ: Env)
    requires Unmarked(pieces)
    requires IsSet(environ, "OPENAI_API_KEY") ==> NoOpen(environ["OPENAI_API_KEY"])
    ensures PatchConfig(Render(pieces, OpenAiPlaceholder, OllamaPlaceholder), environ)
            == Render(pieces,
                      if IsSet(environ, "OPENAI_API_KEY") then environ["OPENAI_API_KEY"] else OpenAiPlaceholder,
                      if IsSet(environ, "OLLAMA_API_KEY") then environ["OLLAMA_API_KEY"] else OllamaPlaceholder)
  {
    var openAi := if IsSet(environ, "OPENAI_API_KEY") then environ["OPENAI_API_KEY"] else OpenAiPlaceholder;
    if IsSet(environ, "OPENAI_API_KEY") {
      RenderReplaceOpenAi(pieces, OllamaPlaceholder, openAi);
    }
    if IsSet(environ, "OLLAMA_API_KEY") {
      RenderReplaceOllama(pieces, openAi, environ["OLLAMA_API_KEY"]);
    }
  }

  /** Text, one OpenAI slot, text. */
  lemma RenderAroundOpenAi(head: string, openAi: string, ollama: string, tail: string)
    ensures Render([Plain(head), OpenAiSlot, Plain(tail)], openAi, ollama) == head + openAi + tail
  {
    var pieces := [Plain(head), OpenAiSlot, Plain(tail)];
    assert pieces[1..][1..][1..] == [];
    assert Render(pieces[1..][1..], openAi, ollama) == tail + "";
  }

  /** A config with a `$schema` key still has its placeholder filled. */
  lemma PatchSchemaExample(config: string, environ: Env)
    requires config == "{\"$schema\":1,\"k\":\"" + OpenAiPlaceholder + "\"}"
    requires environ == map["OPENAI_API_KEY" := "sk"]
    ensures PatchConfig(config, environ) == "{\"$schema\":1,\"k\":\"sk\"}"
  {
    var head, tail := "{\"$schema\":1,\"k\":\"", "\"}";
    var pieces := [Plain(head), OpenAiSlot, Plain(tail)];
    SchemaHeadNoOpen(head);
    assert NoOpen(tail);
    assert Unmarked(pieces);
    RenderAroundOpenAi(head, OpenAiPlaceholder, OllamaPlaceholder, tail);
    RenderAroundOpenAi(head, "sk", OllamaPlaceholder, tail);
    PatchFillsSlots(pieces, environ);
  }

  lemma SchemaHeadNoOpen(head: string)
    requires head == "{\"$schema\":1,\"k\":\""
    ensures NoOpen(head)
  {
    forall j | 0 <= j < |head| && head[j] == '$'
      ensures j + 1 < |head| && head[j + 1] != '{'
    {
      assert j == 2;
    }
  }

  /** The OpenAI key is substituted before the Ollama one: a config with
      only the OpenAI placeholder whose OpenAI key holds the Ollama
      placeholder ends up with the Ollama key. */
  lemma PatchOrder(ollamaKey: string)
    requires ollamaKey != ""
    ensures PatchConfig(OpenAiPlaceholder, map["OPENAI_API_KEY" := OllamaPlaceholder, "OLLAMA_API_KEY" := ollamaKey])
            == ollamaKey
  {
    var environ := map["OPENAI_API_KEY" := OllamaPlaceholder, "OLLAMA_API_KEY" := ollamaKey];
    ReplaceAtStart(OpenAiPlaceholder, "", OllamaPlaceholder);
    assert OpenAiPlaceholder + "" == OpenAiPlaceholder;
    assert OllamaPlaceholder + Replace("", OpenAiPlaceholder, OllamaPlaceholder) == OllamaPlaceholder;
    ReplaceAtStart(OllamaPlaceholder, "", ollamaKey);
    assert OllamaPlaceholder + "" == OllamaPlaceholder;
    assert ollamaKey + Replace("", OllamaPlaceholder, ollamaKey) == ollamaKey;
  }
}

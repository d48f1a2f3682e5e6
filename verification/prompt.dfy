/**
 The master prompt (main.py, `construir_prompt_maestro`): the retrieved
 context chunks are joined with a blank line between them and spliced,
 together with the raw question, into a fixed persona template. The
 composer is a pure function of the question and the ordered chunks; it
 has no failure mode.

 The persona-specific text of the template is gathered in a `Persona`
 record, and `Samuel` holds the text of main.py verbatim. The lemmas are
 stated for every persona record, so in particular for `Samuel`.
 */
module Prompt {
  import opened Text

  /** The blank-line separator placed between context chunks. */
  const Separator: string := "\n\n"

  /** Blank line, then the heading of the context section. */
  const ContextHeading: string := "\nContexto relevante:\n"

  /** Blank line, then the heading of the question section. */
  const QuestionHeading: string := "\n\nPregunta:\n"

  /**
   The persona text of the template. The style block is the opening lines,
   the trait bullets and the closing bullet, which quotes the closing cry
   every answer must end with; `answerLine` is the final instruction that
   names the persona.
   */
  datatype Persona = Persona(
    opening: string,
    traits: string,
    closingLead: string,
    cry: string,
    closingTail: string,
    answerLine: string)
  {
    /** The closing bullet, which mandates the closing cry. */
    function ClosingRule(): string {
      closingLead + cry + closingTail
    }

    /** Header, trait bullets and closing bullet. */
    function StyleBlock(): string {
      opening + traits + ClosingRule()
    }

    /** Everything before the context: a leading newline, the style block and the context heading. */
    function Prefix(): string {
      "\n" + StyleBlock() + ContextHeading
    }

    /** Everything after the query: a blank line, the closing instruction and a final newline. */
    function Trailer(): string {
      "\n\n" + answerLine + "\n"
    }
  }

  /** The Samuel Doria Medina persona, word for word as main.py writes it. */
  const Samuel: Persona := Persona(
    "Eres Samuel Doria Medina, empresario y político boliviano. Vas a responder la siguiente pregunta como si fueras él, manteniendo su estilo:\n\n",
    "- Tono sobrio, directo, emocionalmente patriótico.\n"
    + "- Uso de frases como: \"hay que tomar decisiones\", \"no podemos dejar de luchar\", \"100 días, carajo\".\n"
    + "- Contrasta modelos: \"estatismo o emprendimiento\", \"el Estado obeso y el sector privado anémico\".\n"
    + "- Usa cifras, ejemplos económicos y personales.\n",
    "- Finaliza con fuerza emocional: \"",
    "¡Viva Bolivia!",
    "\".\n",
    "Respuesta como Samuel Doria Medina:")

  /** The chunks as they appear in the prompt's context section. */
  function Context(contexto: seq<string>): string {
    Join(Separator, contexto)
  }

  /**
   The prompt for `query` given the retrieved chunks `contexto`, in the
   order received. Its length is that of the template, the query, every
   chunk and one separator between each neighbouring pair of chunks; it
   opens and closes with a newline.
   */
  function ComposeFor(persona: Persona, query: string, contexto: seq<string>): (r: string)
    ensures |r| == |persona.Prefix()| + |QuestionHeading| + |query| + |persona.Trailer()|
                   + (if |contexto| == 0 then 0 else SumLen(contexto) + (|contexto| - 1) * |Separator|)
    ensures r[0] == '\n' && r[|r| - 1] == '\n'
  {
    var prefix, trailer := persona.Prefix(), persona.Trailer();
    assert prefix[0] == '\n';
    assert trailer[|trailer| - 1] == '\n';
    prefix + Context(contexto) + QuestionHeading + query + trailer
  }

  /** `construir_prompt_maestro(query, contexto)`. */
  function Compose(query: string, contexto: seq<string>): string {
    ComposeFor(Samuel, query, contexto)
  }

  /** Where each part of a composed prompt begins. */
  datatype Landmarks = Landmarks(style: nat, cry: nat, context: nat, query: nat, answer: nat)

  /**
   Locates the parts of a composed prompt. They appear in the template's
   order: the style block with its closing-cry instruction, then the
   context, then the query, then the closing instruction naming the
   persona, which ends one character (the final newline) before the end.
   */
  function Locate(persona: Persona, query: string, contexto: seq<string>): (m: Landmarks)
    ensures Occurs(persona.StyleBlock(), ComposeFor(persona, query, contexto), m.style)
    ensures Occurs(persona.cry, ComposeFor(persona, query, contexto), m.cry)
    ensures Occurs(Context(contexto), ComposeFor(persona, query, contexto), m.context)
    ensures Occurs(query, ComposeFor(persona, query, contexto), m.query)
    ensures Occurs(persona.answerLine, ComposeFor(persona, query, contexto), m.answer)
    ensures m.style <= m.cry
    ensures m.cry + |persona.cry| <= m.style + |persona.StyleBlock()| < m.context
    ensures m.context + |Context(contexto)| < m.query
    ensures m.query + |query| < m.answer
    ensures m.answer + |persona.answerLine| + 1 == |ComposeFor(persona, query, contexto)|
    ensures ComposeFor(persona, query, contexto)[|ComposeFor(persona, query, contexto)| - 1] == '\n'
    ensures m.style == 1 && ComposeFor(persona, query, contexto)[0] == '\n'
  {
    var ctx := Context(contexto);
    var m := Landmarks(
      1,
      1 + |persona.opening| + |persona.traits| + |persona.closingLead|,
      |persona.Prefix()|,
      |persona.Prefix()| + |ctx| + |QuestionHeading|,
      |persona.Prefix()| + |ctx| + |QuestionHeading| + |query| + 2);
    StyleInPrefix(persona);
    PrefixInPrompt(persona, persona.StyleBlock(), 1, query, contexto);
    CryInPrefix(persona);
    PrefixInPrompt(persona, persona.cry, m.cry, query, contexto);
    ContextInPrompt(persona, query, contexto);
    QueryInPrompt(persona, query, contexto);
    AnswerInPrompt(persona, query, contexto);
    m
  }

  /**
   In Samuel's prompt, "¡Viva Bolivia!" is quoted before the context, the
   context comes before the query, and the query comes before the closing
   "Respuesta como Samuel Doria Medina:" line.
   */
  lemma SamuelPromptOrder(query: string, contexto: seq<string>)
    ensures Occurs("¡Viva Bolivia!", Compose(query, contexto), Locate(Samuel, query, contexto).cry)
    ensures Occurs("Respuesta como Samuel Doria Medina:", Compose(query, contexto),
                   Locate(Samuel, query, contexto).answer)
    ensures Locate(Samuel, query, contexto).cry + |"¡Viva Bolivia!"| < Locate(Samuel, query, contexto).context
    ensures Locate(Samuel, query, contexto).context + |Context(contexto)| < Locate(Samuel, query, contexto).query
    ensures Locate(Samuel, query, contexto).query + |query| < Locate(Samuel, query, contexto).answer
  {
  }

  /** Text found in the prefix is found at the same place in every prompt. */
  lemma PrefixInPrompt(persona: Persona, sub: string, at: int, query: string, contexto: seq<string>)
    requires Occurs(sub, persona.Prefix(), at)
    ensures Occurs(sub, ComposeFor(persona, query, contexto), at)
  {
    var prefix, ctx := persona.Prefix(), Context(contexto);
    OccursBefore(sub, prefix, at, ctx);
    OccursBefore(sub, prefix + ctx, at, QuestionHeading);
    OccursBefore(sub, prefix + ctx + QuestionHeading, at, query);
    OccursBefore(sub, prefix + ctx + QuestionHeading + query, at, persona.Trailer());
  }

  lemma StyleInPrefix(persona: Persona)
    ensures Occurs(persona.StyleBlock(), persona.Prefix(), 1)
  {
    OccursInMiddle("\n", persona.StyleBlock(), ContextHeading);
  }

  lemma CryInPrefix(persona: Persona)
    ensures Occurs(persona.cry, persona.Prefix(),
                   1 + |persona.opening| + |persona.traits| + |persona.closingLead|)
  {
    var lead := persona.opening + persona.traits;
    OccursInMiddle(persona.closingLead, persona.cry, persona.closingTail);
    OccursAfter(persona.cry, persona.ClosingRule(), |persona.closingLead|, lead);
    OccursWrapped(persona.cry, persona.StyleBlock(), |lead| + |persona.closingLead|, "\n", ContextHeading);
  }

  lemma ContextInPrompt(persona: Persona, query: string, contexto: seq<string>)
    ensures Occurs(Context(contexto), ComposeFor(persona, query, contexto), |persona.Prefix()|)
  {
    OccursSelf(Context(contexto));
    ContextPartInPrompt(persona, Context(contexto), 0, query, contexto);
  }

  lemma QueryInPrompt(persona: Persona, query: string, contexto: seq<string>)
    ensures Occurs(query, ComposeFor(persona, query, contexto),
                   |persona.Prefix()| + |Context(contexto)| + |QuestionHeading|)
  {
    OccursInMiddle(persona.Prefix() + Context(contexto) + QuestionHeading, query, persona.Trailer());
  }

  lemma AnswerInPrompt(persona: Persona, query: string, contexto: seq<string>)
    ensures Occurs(persona.answerLine, ComposeFor(persona, query, contexto),
                   |persona.Prefix()| + |Context(contexto)| + |QuestionHeading| + |query| + 2)
  {
    OccursInMiddle("\n\n", persona.answerLine, "\n");
    OccursAfter(persona.answerLine, persona.Trailer(), 2,
                persona.Prefix() + Context(contexto) + QuestionHeading + query);
  }

  /** Text found in the context section is found, shifted by the prefix, in the prompt. */
  lemma ContextPartInPrompt(persona: Persona, sub: string, at: int, query: string, contexto: seq<string>)
    requires Occurs(sub, Context(contexto), at)
    ensures Occurs(sub, ComposeFor(persona, query, contexto), |persona.Prefix()| + at)
  {
    var prefix, ctx := persona.Prefix(), Context(contexto);
    OccursAfter(sub, ctx, at, prefix);
    OccursBefore(sub, prefix + ctx, |prefix| + at, QuestionHeading);
    OccursBefore(sub, prefix + ctx + QuestionHeading, |prefix| + at, query);
    OccursBefore(sub, prefix + ctx + QuestionHeading + query, |prefix| + at, persona.Trailer());
  }

  /**
   Each chunk appears in the prompt at its place in the context section,
   before the query.
   */
  lemma ChunkInPrompt(persona: Persona, query: string, contexto: seq<string>, i: nat)
    requires i < |contexto|
    ensures Occurs(contexto[i], ComposeFor(persona, query, contexto),
                   |persona.Prefix()| + Start(Separator, contexto, i))
    ensures |persona.Prefix()| + Start(Separator, contexto, i) + |contexto[i]|
            < Locate(persona, query, contexto).query
  {
    JoinPlacesString(Separator, contexto, i);
    ContextPartInPrompt(persona, contexto[i], Start(Separator, contexto, i), query, contexto);
  }

  /**
   Every chunk appears in the prompt at its place in the context section,
   and an earlier chunk ends (and is followed by the blank-line separator)
   before a later one begins; all of them come before the query.
   */
  lemma ChunksInPromptOrder(persona: Persona, query: string, contexto: seq<string>, i: nat, j: nat)
    requires i < j < |contexto|
    ensures Occurs(contexto[i], ComposeFor(persona, query, contexto),
                   |persona.Prefix()| + Start(Separator, contexto, i))
    ensures Occurs(contexto[j], ComposeFor(persona, query, contexto),
                   |persona.Prefix()| + Start(Separator, contexto, j))
    ensures Start(Separator, contexto, i) + |contexto[i]| + |Separator| <= Start(Separator, contexto, j)
    ensures |persona.Prefix()| + Start(Separator, contexto, j) + |contexto[j]|
            < Locate(persona, query, contexto).query
  {
    JoinKeepsOrder(Separator, contexto, i, j);
    ContextPartInPrompt(persona, contexto[i], Start(Separator, contexto, i), query, contexto);
    ContextPartInPrompt(persona, contexto[j], Start(Separator, contexto, j), query, contexto);
  }

  /** With no retrieved chunks the context section is the empty string. */
  lemma EmptyContextShape(persona: Persona, query: string)
    ensures ComposeFor(persona, query, []) == persona.Prefix() + QuestionHeading + query + persona.Trailer()
  {
    assert Context([]) == [];
    assert persona.Prefix() + Context([]) == persona.Prefix();
  }

  /** In the prompt without context, the context heading directly precedes the question heading. */
  lemma HeadingsAdjacent(persona: Persona, query: string)
    ensures Occurs(ContextHeading + QuestionHeading,
                   persona.Prefix() + QuestionHeading + query + persona.Trailer(),
                   1 + |persona.StyleBlock()|)
  {
    var prefix, trailer := persona.Prefix(), persona.Trailer();
    var p := prefix + QuestionHeading + query + trailer;
    OccursSelf(ContextHeading);
    OccursAfter(ContextHeading, ContextHeading, 0, "\n" + persona.StyleBlock());
    OccursBefore(ContextHeading, prefix, 1 + |persona.StyleBlock()|, QuestionHeading);
    OccursBefore(ContextHeading, prefix + QuestionHeading, 1 + |persona.StyleBlock()|, query);
    OccursBefore(ContextHeading, prefix + QuestionHeading + query, 1 + |persona.StyleBlock()|, trailer);
    OccursInMiddle(prefix, QuestionHeading, query);
    OccursBefore(QuestionHeading, prefix + QuestionHeading + query, |prefix|, trailer);
    OccursAdjacent(ContextHeading, QuestionHeading, p, 1 + |persona.StyleBlock()|);
  }

  /**
   With no retrieved chunks the context heading is followed directly by the
   question heading, with no placeholder between them, and the full style
   block and the literal query are still present.
   */
  lemma EmptyContextPrompt(persona: Persona, query: string)
    ensures Occurs(persona.StyleBlock(), ComposeFor(persona, query, []), 1)
    ensures Occurs(ContextHeading + QuestionHeading, ComposeFor(persona, query, []),
                   1 + |persona.StyleBlock()|)
    ensures Occurs(query, ComposeFor(persona, query, []), |persona.Prefix()| + |QuestionHeading|)
  {
    StyleInPrefix(persona);
    PrefixInPrompt(persona, persona.StyleBlock(), 1, query, []);
    EmptyContextShape(persona, query);
    HeadingsAdjacent(persona, query);
    OccursInMiddle(persona.Prefix() + QuestionHeading, query, persona.Trailer());
  }

  datatype Option<T> = None | Some(value: T)

  /**
   Reads the question back out of a prompt whose context section is known
   to be `ctx`; `None` when the prompt does not have the template's shape.
   */
  function QuestionOf(persona: Persona, prompt: string, ctx: string): Option<string> {
    var head, trailer := persona.Prefix() + ctx + QuestionHeading, persona.Trailer();
    if |head| + |trailer| <= |prompt|
       && prompt[..|head|] == head
       && prompt[|prompt| - |trailer|..] == trailer
    then Some(prompt[|head|..|prompt| - |trailer|])
    else None
  }

  /**
   Reads the context section back out of a prompt whose question is known
   to be `query`; `None` when the prompt does not have the template's shape.
   */
  function ContextOf(persona: Persona, prompt: string, query: string): Option<string> {
    var prefix, tail := persona.Prefix(), QuestionHeading + query + persona.Trailer();
    if |prefix| + |tail| <= |prompt|
       && prompt[..|prefix|] == prefix
       && prompt[|prompt| - |tail|..] == tail
    then Some(prompt[|prefix|..|prompt| - |tail|])
    else None
  }

  /** The composer loses nothing: the query can be read back from the prompt. */
  lemma QuestionRoundTrip(persona: Persona, query: string, contexto: seq<string>)
    ensures QuestionOf(persona, ComposeFor(persona, query, contexto), Context(contexto)) == Some(query)
  {
    var head := persona.Prefix() + Context(contexto) + QuestionHeading;
    CutThree(head, query, persona.Trailer());
  }

  /** The composer loses nothing: the joined context can be read back from the prompt. */
  lemma ContextRoundTrip(persona: Persona, query: string, contexto: seq<string>)
    ensures ContextOf(persona, ComposeFor(persona, query, contexto), query) == Some(Context(contexto))
  {
    var tail := QuestionHeading + query + persona.Trailer();
    Regroup(persona.Prefix(), Context(contexto), QuestionHeading, query, persona.Trailer());
    CutThree(persona.Prefix(), Context(contexto), tail);
  }

  /** Conversely, any prompt the question reader accepts is a prompt of the template. */
  lemma QuestionOfOnlyTemplate(persona: Persona, prompt: string, ctx: string, query: string)
    requires QuestionOf(persona, prompt, ctx) == Some(query)
    ensures prompt == persona.Prefix() + ctx + QuestionHeading + query + persona.Trailer()
  {
    var head := persona.Prefix() + ctx + QuestionHeading;
    SplitThree(prompt, |head|, |prompt| - |persona.Trailer()|);
  }

  /** Conversely, any prompt the context reader accepts is a prompt of the template. */
  lemma ContextOfOnlyTemplate(persona: Persona, prompt: string, query: string, ctx: string)
    requires ContextOf(persona, prompt, query) == Some(ctx)
    ensures prompt == persona.Prefix() + ctx + QuestionHeading + query + persona.Trailer()
  {
    var tail := QuestionHeading + query + persona.Trailer();
    SplitThree(prompt, |persona.Prefix()|, |prompt| - |tail|);
    Regroup(persona.Prefix(), ctx, QuestionHeading, query, persona.Trailer());
  }

  /** Prompts built from the same chunks differ exactly when their queries differ. */
  lemma ComposeSeparatesQueries(persona: Persona, q1: string, q2: string, contexto: seq<string>)
    ensures ComposeFor(persona, q1, contexto) == ComposeFor(persona, q2, contexto) <==> q1 == q2
  {
    if ComposeFor(persona, q1, contexto) == ComposeFor(persona, q2, contexto) {
      QuestionRoundTrip(persona, q1, contexto);
      QuestionRoundTrip(persona, q2, contexto);
    }
  }

  /** Prompts for the same query differ exactly when their joined contexts differ. */
  lemma ComposeSeparatesContexts(persona: Persona, query: string, c1: seq<string>, c2: seq<string>)
    ensures ComposeFor(persona, query, c1) == ComposeFor(persona, query, c2) <==> Context(c1) == Context(c2)
  {
    if ComposeFor(persona, query, c1) == ComposeFor(persona, query, c2) {
      ContextRoundTrip(persona, query, c1);
      ContextRoundTrip(persona, query, c2);
    }
  }
}

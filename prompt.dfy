/**
 * The user prompt of the /api/analizar handler (server.js:63-80): a fixed
 * instruction text, the rendered lead block, and a closing line break.
 */
module AnalysisPrompt {
  import opened Wrappers

  /** The instructions and the requested JSON shape, up to the lead marker. */
  const Instructions: string :=
    "\n"
    + "Eres un analista comercial senior de Metcorp Panel SIP.\n"
    + "Analiza la información del lead y responde ÚNICAMENTE en JSON válido con esta estructura EXACTA:\n"
    + "\n"
    + "{\n"
    + "  \"resumen_ejecutivo\": \"texto corto\",\n"
    + "  \"probabilidad_cierre\": 0-100,\n"
    + "  \"clasificacion\": \"frio\" | \"tibio\" | \"caliente\",\n"
    + "  \"señales_positivas\": [\"texto\", \"...\"],\n"
    + "  \"señales_negativas\": [\"texto\", \"...\"],\n"
    + "  \"recomendaciones_estrategicas\": [\"texto\", \"...\"]\n"
    + "}\n"
    + "\n"
    + "No agregues texto fuera del JSON.\n"
    + "\n"

  /** The line after which the lead block is placed. */
  const LeadMarker: string := "Información del lead:\n"

  /**
   * The prompt: the lead block sits verbatim between the fixed text and a
   * final line break, and can be read back from it.
   */
  function Prompt(infoLead: string): (p: string)
    ensures EmbeddedInfo(p) == Some(infoLead)
  {
    Instructions + LeadMarker + infoLead + "\n"
  }

  /** Recovers the lead block from a prompt, or None if the fixed text does not frame it. */
  function EmbeddedInfo(p: string): Option<string> {
    var head := |Instructions| + |LeadMarker|;
    if |p| > head && p[..head] == Instructions + LeadMarker && p[|p| - 1] == '\n'
    then Some(p[head..|p| - 1])
    else None
  }

  /**
   * Everything outside the lead block is the same for every request: the
   * instructions, then the line "Información del lead:", then, after the
   * block, one line break.
   */
  lemma PromptFixedText(infoLead: string)
    ensures var p := Prompt(infoLead);
            && |p| == |Instructions| + |LeadMarker| + |infoLead| + 1
            && p[..|Instructions|] == Instructions
            && p[|Instructions|..|Instructions| + |LeadMarker|] == LeadMarker
            && p[|Instructions| + |LeadMarker|..|p| - 1] == infoLead
            && p[|p| - 1] == '\n'
  {
  }
}

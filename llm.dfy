/** The language-model agents as the rest of the model sees them: one answer per prompt. */
module Llm {
  import opened Wrappers

  /** What an agent's `generate` gave: a response whose text may be missing, or a thrown error. */
  datatype Generation = Generated(text: Option<string>) | GenerationFailed
}

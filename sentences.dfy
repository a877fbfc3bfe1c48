/** The role-tagged transcript record (`Sentence` in ui/data/Sentence.kt) and the role names in use. */
module Sentences {

  datatype Sentence = Sentence(role: string, message: string)

  /** Role of the model's replies in the on-screen transcript. */
  const Gemini := "GEMINI"
  /** Role of the user's messages in the on-screen transcript. */
  const You := "YOU"
  /** Roles of the DeepSeek chat history. */
  const User := "user"
  const Assistant := "assistant"
}

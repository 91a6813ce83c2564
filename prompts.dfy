/** The batch the three generator scripts work through. */
module Prompts {
  /** One batch entry: the output file name and the prompt text. */
  datatype PromptItem = PromptItem(file: string, prompt: string)
}

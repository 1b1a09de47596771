/**
 * The AI controller interface (controllers/ai/base.py) as the prompt
 * managers see it: a call from a system prompt and a user prompt to the
 * model's text, or the exception the call raised. The model itself is
 * outside this project, so every manager takes the call as a parameter.
 */
module Controller {
  import opened Values

  /** generate_response(user_prompt, system_prompt) with the default
      parameters: the system prompt first, then the user prompt. */
  type Backend = (string, string) -> Outcome<string>
}

/** The stored conversation row (`Conversation` in the database), which
    both the relevance search and the start-up bootstrap hand back. */
module Records {

  /** One exchange: the user's message and the bot's reply. */
  datatype Conversation = Conversation(userMessage: string, botMessage: string)
}

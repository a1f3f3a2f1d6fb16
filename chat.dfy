/** Entries of a session's chat transcript. The guided flow stores assistant
    replies as assistant messages, the simple chatbot page stores them as
    system messages; both display every non-user entry as "assistant". */
module Chat {

  datatype Role = User | Assistant | System

  datatype Message = Message(role: Role, content: string)
}

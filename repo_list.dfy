/** The two repositories the handler persists to, as one record. */
module RepoList {
  import opened UserRepo
  import opened MessageRepo

  class RepositoryList {
    const userRepository: UserRepository
    const messageRepository: MessageRepository

    constructor (users: UserRepository, messages: MessageRepository)
      ensures userRepository == users && messageRepository == messages
    {
      userRepository := users;
      messageRepository := messages;
    }
  }
}

/** The `lucide-react` icons the rule cards and alert cards choose between. */
module Icons {
  datatype Icon = Shield | Zap | AlertTriangle | Activity | Search
}
